/**
 * The array manipulation `Kombine.run_sampler` applies to the sampler's
 * chain (`[iteration][walker][dimension]`) and blob trace
 * (`[iteration][walker][2]`): Python slicing from a possibly negative
 * index, numpy's row-major `reshape`, and taking a column.
 */
module ChainArrays {
  import opened Wrappers

  /** A numpy array of three axes, outermost first. */
  type Chain = seq<seq<seq<real>>>

  /** Every iteration holds `w` walkers of `d` components each. */
  predicate Shaped(a: Chain, w: nat, d: nat) {
    forall i :: 0 <= i < |a| ==> |a[i]| == w && forall j :: 0 <= j < w ==> |a[i][j]| == d
  }

  /** Python's `s[k:]`: a negative `k` counts from the end, and both are clamped to the sequence. */
  function SliceFrom<T>(s: seq<T>, k: int): (r: seq<T>)
    ensures k >= 0 ==> |r| == if k >= |s| then 0 else |s| - k
    ensures k < 0 ==> |r| == if -k >= |s| then |s| else -k
    ensures forall i :: 0 <= i < |r| ==> r[i] == s[|s| - |r| + i]
  {
    if k >= |s| then []
    else if k >= 0 then s[k..]
    else if -k >= |s| then s
    else s[|s| + k..]
  }

  /** Python's `s[:k]` for a count `k`, clamped to the sequence. */
  function PrefixTo<T>(s: seq<T>, k: nat): (r: seq<T>)
    ensures |r| == if k >= |s| then |s| else k
    ensures r == s[..|r|]
  {
    if k >= |s| then s else s[..k]
  }

  /** Joining the elements end to end: numpy's reshape that merges the two outer axes. */
  function Concat<T>(xss: seq<seq<T>>): seq<T>
    decreases |xss|
  {
    if xss == [] then [] else xss[0] + Concat(xss[1..])
  }

  /** When every part has length `m`, the parts end to end have `|xss| * m` elements. */
  lemma {:induction false} ConcatLength<T>(xss: seq<seq<T>>, m: nat)
    requires forall i :: 0 <= i < |xss| ==> |xss[i]| == m
    ensures |Concat(xss)| == |xss| * m
    decreases |xss|
  {
    if xss != [] {
      ConcatLength(xss[1..], m);
      assert |xss| * m == m + (|xss| - 1) * m;
    }
  }

  /** ... and part `i`'s element `j` lands at `i * m + j`. */
  lemma {:induction false} ConcatAt<T>(xss: seq<seq<T>>, m: nat, i: nat, j: nat)
    requires forall i :: 0 <= i < |xss| ==> |xss[i]| == m
    requires i < |xss| && j < m
    ensures i * m + j < |Concat(xss)| && Concat(xss)[i * m + j] == xss[i][j]
    decreases i
  {
    ConcatLength(xss, m);
    if i > 0 {
      ConcatAt(xss[1..], m, i - 1, j);
      assert i * m + j == m + ((i - 1) * m + j);
    }
  }

  /** Every element of the parts end to end comes from some part: a bound on all parts' elements carries over. */
  lemma {:induction false} ConcatRowLengths(xss: seq<seq<seq<real>>>, d: nat)
    requires forall i, j :: 0 <= i < |xss| && 0 <= j < |xss[i]| ==> |xss[i][j]| == d
    ensures forall r :: 0 <= r < |Concat(xss)| ==> |Concat(xss)[r]| == d
    decreases |xss|
  {
    if xss != [] {
      ConcatRowLengths(xss[1..], d);
      forall r | 0 <= r < |Concat(xss)|
        ensures |Concat(xss)[r]| == d
      {
        if r >= |xss[0]| {
          assert Concat(xss)[r] == Concat(xss[1..])[r - |xss[0]|];
        } else {
          assert Concat(xss)[r] == xss[0][r];
        }
      }
    }
  }

  /** Flattening the two outer axes of a shaped chain gives `|a| * w` rows of `d` components. */
  lemma RowsOfShaped(a: Chain, w: nat, d: nat)
    requires Shaped(a, w, d)
    ensures |Concat(a)| == |a| * w
    ensures forall r :: 0 <= r < |Concat(a)| ==> |Concat(a)[r]| == d
  {
    ConcatLength(a, w);
    ConcatRowLengths(a, d);
  }

  /** Every element of a flat array, in row-major order. */
  function Flatten3(a: Chain): seq<real> {
    Concat(Concat(a))
  }

  /** `s` cut into `n` consecutive pieces of length `c`. */
  function Group<T>(s: seq<T>, n: nat, c: nat): (r: seq<seq<T>>)
    requires |s| == n * c
    ensures |r| == n
    ensures forall i :: 0 <= i < n ==> |r[i]| == c
    decreases n
  {
    if n == 0 then []
    else
      assert n * c == c + (n - 1) * c;
      [s[..c]] + Group(s[c..], n - 1, c)
  }

  /** Cutting into pieces and joining them again gives back the sequence. */
  lemma {:induction false} ConcatGroup<T>(s: seq<T>, n: nat, c: nat)
    requires |s| == n * c
    ensures Concat(Group(s, n, c)) == s
    decreases n
  {
    if n > 0 {
      assert n * c == c + (n - 1) * c;
      var g := Group(s, n, c);
      assert g[1..] == Group(s[c..], n - 1, c);
      ConcatGroup(s[c..], n - 1, c);
      assert s == s[..c] + s[c..];
    }
  }

  /** numpy's `flat.reshape((a, b, c))`, which fails unless the sizes agree. */
  function Reshape3(flat: seq<real>, a: nat, b: nat, c: nat): Option<Chain> {
    if |flat| != a * b * c then None
    else
      assert |flat| == (a * b) * c;
      var rows := Group(flat, a * b, c);
      Some(Group(rows, a, b))
  }

  /** A successful reshape keeps the flat order and has the requested shape; it fails exactly on a size mismatch. */
  lemma Reshape3Facts(flat: seq<real>, a: nat, b: nat, c: nat)
    ensures Reshape3(flat, a, b, c).None? <==> |flat| != a * b * c
    ensures Reshape3(flat, a, b, c).Some? ==> Flatten3(Reshape3(flat, a, b, c).value) == flat
    ensures Reshape3(flat, a, b, c).Some? ==>
              |Reshape3(flat, a, b, c).value| == a && Shaped(Reshape3(flat, a, b, c).value, b, c)
  {
    if |flat| == a * b * c {
      assert |flat| == (a * b) * c;
      var rows := Group(flat, a * b, c);
      var r := Group(rows, a, b);
      ConcatGroup(rows, a, b);
      ConcatGroup(flat, a * b, c);
      assert Shaped(r, b, c) by {
        forall i, j | 0 <= i < a && 0 <= j < b
          ensures |r[i][j]| == c
        {
          ConcatAt(r, b, i, j);
        }
      }
    }
  }

  /** Column `k` of a table whose rows all have more than `k` entries: a numpy transpose's row `k`. */
  function Column(rows: seq<seq<real>>, k: nat): (r: seq<real>)
    requires forall i :: 0 <= i < |rows| ==> |rows[i]| > k
    ensures |r| == |rows| && forall i :: 0 <= i < |rows| ==> r[i] == rows[i][k]
  {
    seq(|rows|, i requires 0 <= i < |rows| => rows[i][k])
  }

  /** Slicing keeps the shape of every kept iteration. */
  lemma SliceShaped(a: Chain, k: int, w: nat, d: nat)
    requires Shaped(a, w, d)
    ensures Shaped(SliceFrom(a, k), w, d)
  {
    var s := SliceFrom(a, k);
    forall i | 0 <= i < |s|
      ensures |s[i]| == w && forall j :: 0 <= j < w ==> |s[i][j]| == d
    {
      assert s[i] == a[|a| - |s| + i];
    }
  }
}
