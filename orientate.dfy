/**
 * The axis remapping of orientate.py: `transpose` picks, for every vector,
 * the components named by an index tuple (in that order, with Python's
 * negative indices, raising on an index out of range), and `invert`
 * negates the components whose flag is set, zipping flags and components
 * the way `map` does, so that it stops at the shorter of the two.
 * `orientate` transposes first and then inverts.
 */
module Orientate {
  import opened Wrappers

  /** A sensor vector as the caller passes it: any sequence of numbers, usually of length three. */
  type Vector = seq<real>

  function Min(a: int, b: int): int {
    if a < b then a else b
  }

  /** `-y if x else y`. */
  function Flip(flag: bool, y: real): real {
    if flag then -y else y
  }

  /** Whether `vector[axis]` exists on a sequence of length `n`: `-n <= axis < n`. */
  predicate InRange(n: nat, axis: int) {
    -(n as int) <= axis < n
  }

  /** The position `vector[axis]` reads: a negative index counts from the end. */
  function Position(n: nat, axis: int): (p: nat)
    requires InRange(n, axis)
    ensures p < n
    ensures axis >= 0 ==> p == axis
    ensures axis < 0 ==> p == n + axis
  {
    if axis < 0 then n + axis else axis
  }

  /** `tuple(map(lambda x, y: -y if x else y, axes, vector))`. */
  function InvertOne(axes: seq<bool>, vector: Vector): (r: Vector)
    ensures |r| == Min(|axes|, |vector|)
    ensures forall j :: 0 <= j < |r| ==> r[j] == Flip(axes[j], vector[j])
  {
    if |axes| == 0 || |vector| == 0 then []
    else [Flip(axes[0], vector[0])] + InvertOne(axes[1..], vector[1..])
  }

  /** `invert(axes, vectors)`: one inverted vector appended per input vector, in order. */
  function Invert(axes: seq<bool>, vectors: seq<Vector>): (r: seq<Vector>)
    ensures |r| == |vectors|
    ensures forall n :: 0 <= n < |r| ==> r[n] == InvertOne(axes, vectors[n])
  {
    if |vectors| == 0 then []
    else Invert(axes, vectors[..|vectors| - 1]) + [InvertOne(axes, vectors[|vectors| - 1])]
  }

  /** `[vector[axis] for axis in idx]`: raises `IndexError` at the first index out of range. */
  function TransposeOne(idx: seq<int>, vector: Vector): (r: Result<Vector, Error>)
    ensures r.Success? <==> forall k :: 0 <= k < |idx| ==> InRange(|vector|, idx[k])
    ensures r.Failure? ==> r.error == IndexOutOfRange
    ensures r.Success? ==>
      && |r.value| == |idx|
      && forall k :: 0 <= k < |idx| ==> r.value[k] == vector[Position(|vector|, idx[k])]
  {
    if |idx| == 0 then Success([])
    else if !InRange(|vector|, idx[0]) then Failure(IndexOutOfRange)
    else match TransposeOne(idx[1..], vector)
      case Failure(e) => Failure(e)
      case Success(rest) => Success([vector[Position(|vector|, idx[0])]] + rest)
  }

  /** `transpose(idx, vectors)`: one list per input vector, in order; a vector that cannot be transposed raises. */
  function Transpose(idx: seq<int>, vectors: seq<Vector>): (r: Result<seq<Vector>, Error>)
    ensures r.Success? <==> forall n :: 0 <= n < |vectors| ==> TransposeOne(idx, vectors[n]).Success?
    ensures r.Failure? ==> r.error == IndexOutOfRange
    ensures r.Success? ==>
      && |r.value| == |vectors|
      && forall n :: 0 <= n < |vectors| ==> TransposeOne(idx, vectors[n]) == Success(r.value[n])
  {
    if |vectors| == 0 then Success([])
    else
      var init := vectors[..|vectors| - 1];
      var last := vectors[|vectors| - 1];
      match Transpose(idx, init)
      case Failure(e) =>
        var n :| 0 <= n < |init| && TransposeOne(idx, init[n]).Failure?;
        assert vectors[n] == init[n];
        Failure(e)
      case Success(front) =>
        match TransposeOne(idx, last)
        case Failure(e) => Failure(e)
        case Success(v) => Success(front + [v])
  }

  /**
   * `orientate(t, i, *vecs)`: transposition first, then inversion.  It
   * raises exactly when some vector cannot be transposed; otherwise there
   * is one output per input vector, and its component `k` is input
   * component `t[k]` negated when `i[k]` is set.
   */
  function Orientate(t: seq<int>, i: seq<bool>, vecs: seq<Vector>): (r: Result<seq<Vector>, Error>)
    ensures r.Success? <==> forall n :: 0 <= n < |vecs| ==> TransposeOne(t, vecs[n]).Success?
    ensures r.Failure? ==> r.error == IndexOutOfRange
    ensures r.Success? ==> |r.value| == |vecs|
    ensures r.Success? ==> forall n :: 0 <= n < |vecs| ==> OrientedAs(t, i, vecs[n], r.value[n])
  {
    match Transpose(t, vecs)
    case Failure(e) => Failure(e)
    case Success(ts) =>
      var r := Invert(i, ts);
      assert forall n :: 0 <= n < |vecs| ==> OrientedAs(t, i, vecs[n], r[n]) by {
        forall n | 0 <= n < |vecs| ensures OrientedAs(t, i, vecs[n], r[n]) {
          assert TransposeOne(t, vecs[n]) == Success(ts[n]);
        }
      }
      Success(r)
  }

  /**
   * `w` is `v` remapped by `t` and then `i`: it has a component for every
   * pair of index and flag, and component `k` is `v[t[k]]`, negated when
   * `i[k]` is set.
   */
  ghost predicate OrientedAs(t: seq<int>, i: seq<bool>, v: Vector, w: Vector) {
    && |w| == Min(|i|, |t|)
    && forall k :: 0 <= k < |w| ==> InRange(|v|, t[k]) && w[k] == Flip(i[k], v[Position(|v|, t[k])])
  }

  /* ---------------------------------------------------------------- *
   *  Properties                                                       *
   * ---------------------------------------------------------------- */

  /** Every vector has `n` components. */
  predicate AllOfLength(vectors: seq<Vector>, n: nat) {
    forall m :: 0 <= m < |vectors| ==> |vectors[m]| == n
  }

  /** `[v[axis] for axis in (0, 1, 2)]` is `v` itself. */
  lemma TransposeOneIdentity(v: Vector)
    requires |v| == 3
    ensures TransposeOne([0, 1, 2], v) == Success(v)
  {
    var idx := [0, 1, 2];
    assert forall k :: 0 <= k < |idx| ==> InRange(|v|, idx[k]) && Position(|v|, idx[k]) == k;
    var r := TransposeOne(idx, v);
    assert r.Success? && |r.value| == 3;
    assert forall k :: 0 <= k < 3 ==> r.value[k] == v[k];
    assert r.value == v;
  }

  /** `transpose((0, 1, 2), vectors)` changes nothing. */
  lemma TransposeIdentity(vectors: seq<Vector>)
    requires AllOfLength(vectors, 3)
    ensures Transpose([0, 1, 2], vectors) == Success(vectors)
  {
    var idx := [0, 1, 2];
    forall n | 0 <= n < |vectors| ensures TransposeOne(idx, vectors[n]) == Success(vectors[n]) {
      TransposeOneIdentity(vectors[n]);
    }
    var r := Transpose(idx, vectors);
    assert r.Success? && |r.value| == |vectors|;
    assert forall n :: 0 <= n < |vectors| ==> r.value[n] == vectors[n];
    assert r.value == vectors;
  }

  /** `[v[axis] for axis in (1, 0, 2)]` swaps the first two components. */
  lemma TransposeOneSwap(v: Vector)
    requires |v| == 3
    ensures TransposeOne([1, 0, 2], v) == Success([v[1], v[0], v[2]])
  {
    var idx := [1, 0, 2];
    var w := [v[1], v[0], v[2]];
    assert forall k :: 0 <= k < |idx| ==> InRange(|v|, idx[k]) && v[Position(|v|, idx[k])] == w[k];
    var r := TransposeOne(idx, v);
    assert r.Success? && |r.value| == 3;
    assert forall k :: 0 <= k < 3 ==> r.value[k] == w[k];
    assert r.value == w;
  }

  /** `transpose((1, 0, 2), vectors)` swaps x and y in every vector. */
  lemma TransposeSwapsXY(vectors: seq<Vector>)
    requires AllOfLength(vectors, 3)
    ensures var r := Transpose([1, 0, 2], vectors);
      && r.Success? && |r.value| == |vectors|
      && forall n :: 0 <= n < |vectors| ==> r.value[n] == [vectors[n][1], vectors[n][0], vectors[n][2]]
  {
    forall n | 0 <= n < |vectors|
      ensures TransposeOne([1, 0, 2], vectors[n]) == Success([vectors[n][1], vectors[n][0], vectors[n][2]])
    {
      TransposeOneSwap(vectors[n]);
    }
  }

  /** `idx` lists each of `0 .. n-1`, once each: a rearrangement of the axes of an `n`-vector. */
  predicate IsPermutation(idx: seq<int>, n: nat) {
    && |idx| == n
    && (forall k :: 0 <= k < n ==> 0 <= idx[k] < n)
    && (forall j :: 0 <= j < n ==> j in idx)
  }

  /** Where `j` sits in `idx`. */
  function IndexOf(idx: seq<int>, j: int): (k: nat)
    requires j in idx
    ensures k < |idx| && idx[k] == j
  {
    if idx[0] == j then 0 else 1 + IndexOf(idx[1..], j)
  }

  /** The index tuple that undoes the rearrangement `idx`. */
  function Inverse(idx: seq<int>, n: nat): (inv: seq<int>)
    requires IsPermutation(idx, n)
    ensures |inv| == n
    ensures forall j :: 0 <= j < n ==> 0 <= inv[j] < n && idx[inv[j]] == j
  {
    seq(n, j requires 0 <= j < n => IndexOf(idx, j))
  }

  /** Remapping one vector by a rearrangement and then by its inverse restores it. */
  lemma TransposeOneRoundTrip(idx: seq<int>, v: Vector)
    requires IsPermutation(idx, |idx|) && |v| == |idx|
    ensures var once := TransposeOne(idx, v);
      && once.Success?
      && TransposeOne(Inverse(idx, |idx|), once.value) == Success(v)
  {
    var n := |idx|;
    assert forall k :: 0 <= k < n ==> InRange(n, idx[k]) && Position(n, idx[k]) == idx[k];
    var r := TransposeOne(idx, v);
    assert r.Success?;
    var once := r.value;
    assert |once| == n;
    var inv := Inverse(idx, n);
    assert forall j :: 0 <= j < n ==> InRange(n, inv[j]) && Position(n, inv[j]) == inv[j];
    var r2 := TransposeOne(inv, once);
    assert r2.Success?;
    var twice := r2.value;
    assert |twice| == n;
    forall j | 0 <= j < n ensures twice[j] == v[j] {
      assert twice[j] == once[inv[j]];
      assert once[inv[j]] == v[idx[inv[j]]];
    }
    assert twice == v;
  }

  /** Transposing by a rearrangement and then by its inverse restores the vectors. */
  lemma TransposeRoundTrip(idx: seq<int>, vectors: seq<Vector>)
    requires IsPermutation(idx, |idx|) && AllOfLength(vectors, |idx|)
    ensures var once := Transpose(idx, vectors);
      && once.Success?
      && Transpose(Inverse(idx, |idx|), once.value) == Success(vectors)
  {
    var inv := Inverse(idx, |idx|);
    forall n | 0 <= n < |vectors| ensures TransposeOne(idx, vectors[n]).Success? {
      TransposeOneRoundTrip(idx, vectors[n]);
    }
    var r := Transpose(idx, vectors);
    assert r.Success?;
    var once := r.value;
    assert |once| == |vectors|;
    forall n | 0 <= n < |once| ensures TransposeOne(inv, once[n]) == Success(vectors[n]) {
      TransposeOneRoundTrip(idx, vectors[n]);
      assert TransposeOne(idx, vectors[n]) == Success(once[n]);
    }
    var r2 := Transpose(inv, once);
    assert r2.Success? && |r2.value| == |vectors|;
    assert forall n :: 0 <= n < |vectors| ==> r2.value[n] == vectors[n];
    assert r2.value == vectors;
  }

  /** Flipping one vector twice with the same flags restores it, cut to the number of flags. */
  lemma InvertOneTwice(axes: seq<bool>, v: Vector)
    ensures InvertOne(axes, InvertOne(axes, v)) == v[..Min(|axes|, |v|)]
  {
    var once := InvertOne(axes, v);
    var twice := InvertOne(axes, once);
    forall j | 0 <= j < |twice| ensures twice[j] == v[j] {
      assert twice[j] == Flip(axes[j], once[j]);
    }
  }

  /** `invert` with no flag set changes nothing, provided there is a flag for every component. */
  lemma InvertNoFlags(axes: seq<bool>, vectors: seq<Vector>)
    requires forall j :: 0 <= j < |axes| ==> !axes[j]
    requires forall n :: 0 <= n < |vectors| ==> |vectors[n]| <= |axes|
    ensures Invert(axes, vectors) == vectors
  {
    var r := Invert(axes, vectors);
    forall n | 0 <= n < |vectors| ensures r[n] == vectors[n] {
      assert |r[n]| == |vectors[n]|;
    }
  }

  /** Inverting twice with the same flags restores each vector, cut to the number of flags. */
  lemma InvertInvolution(axes: seq<bool>, vectors: seq<Vector>)
    ensures var twice := Invert(axes, Invert(axes, vectors));
      && |twice| == |vectors|
      && forall n :: 0 <= n < |vectors| ==> twice[n] == vectors[n][..Min(|axes|, |vectors[n]|)]
  {
    forall n | 0 <= n < |vectors|
      ensures InvertOne(axes, InvertOne(axes, vectors[n])) == vectors[n][..Min(|axes|, |vectors[n]|)]
    {
      InvertOneTwice(axes, vectors[n]);
    }
  }

  /** With a flag for every component, inverting twice is the identity. */
  lemma InvertTwiceIsIdentity(axes: seq<bool>, vectors: seq<Vector>)
    requires forall n :: 0 <= n < |vectors| ==> |vectors[n]| <= |axes|
    ensures Invert(axes, Invert(axes, vectors)) == vectors
  {
    InvertInvolution(axes, vectors);
    forall n | 0 <= n < |vectors|
      ensures vectors[n][..Min(|axes|, |vectors[n]|)] == vectors[n]
    {
    }
  }
}
