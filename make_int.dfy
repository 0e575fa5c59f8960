/** A model of libsimdpp's `make_int` family: vectors built from signed integer
    values known at compile time.

    Each of the five entry points (one per arity N in {1, 2, 4, 8, 16}) checks
    that the requested type is a non-mask vector or the deferred make-const
    expression, fills a fresh descriptor of N 64-bit slots with its arguments,
    and hands that descriptor to the architecture backend. The backend is not
    part of this model; only the lane rule it is documented to follow is:
    lane `i` of an L-lane vector holds `values[i mod N]`.
 */
module MakeInt {

  /** The source's `int64_t`. Lanes keep this type: the conversion to the
      target's element type is not modelled. */
  newtype int64 = x: int | -0x8000_0000_0000_0000 <= x < 0x8000_0000_0000_0000

  /** The argument counts that have an entry point. */
  predicate SupportedArity(n: nat) {
    n == 1 || n == 2 || n == 4 || n == 8 || n == 16
  }

  /** The kinds of type `V` a caller may name as the result type. */
  datatype Target =
    | Vector(lanes: nat)   // a vector type holding `lanes` elements
    | Mask(lanes: nat)     // a mask type: a vector type whose lanes are predicates
    | MakeConstExpr        // the deferred make-const expression (the default `V`)
    | Other                // anything else (a scalar, a class that is not a vector)

  /** The type trait `is_vector`: masks are vector types too. */
  predicate IsVector(t: Target) { t.Vector? || t.Mask? }

  /** The type trait `is_mask`. */
  predicate IsMask(t: Target) { t.Mask? }

  /** The type trait `is_expr_vec_make_const`. */
  predicate IsMakeConstExpr(t: Target) { t.MakeConstExpr? }

  /** The condition of the `static_assert` every entry point starts with. */
  predicate Admissible(t: Target) {
    (IsVector(t) && !IsMask(t)) || IsMakeConstExpr(t)
  }

  /** The type `V` names when the caller gives none. */
  const DefaultTarget: Target := MakeConstExpr

  /** What a call yields: a vector with its lanes, or the deferred expression
      still holding the descriptor's values. */
  datatype Built =
    | Vec(lanes: seq<int64>)
    | Deferred(values: seq<int64>)

  /** The pattern `d` written out again and again, cut at `lanes` elements. */
  function Tile(d: seq<int64>, lanes: nat): (r: seq<int64>)
    requires |d| > 0
    ensures |r| == lanes
    ensures forall i :: 0 <= i < lanes ==> r[i] == d[i % |d|]
    decreases lanes
  {
    if lanes <= |d| then d[..lanes]
    else
      var rest := Tile(d, lanes - |d|);
      forall i | |d| <= i < lanes
        ensures (d + rest)[i] == d[i % |d|]
      {
        ModShift(i - |d|, |d|);
      }
      d + rest
  }

  /** Adding the modulus once does not change the remainder. */
  lemma ModShift(i: nat, n: nat)
    requires n > 0
    ensures (i + n) % n == i % n
  {
    var q := i / n;
    assert i + n == (q + 1) * n + i % n;
    ModUnique(i + n, n, q + 1, i % n);
  }

  /** The remainder is the only `m` in `[0, n)` with `x == q * n + m`. */
  lemma ModUnique(x: int, n: nat, q: int, m: int)
    requires n > 0 && 0 <= m < n
    requires x == q * n + m
    ensures x % n == m
  {
    var k := q - x / n;
    assert k * n == x % n - m;
  }

  /** The documented contract of the backend `i_make_const_dispatch<V>::run`:
      for a vector target of L lanes, lane `i` is `d[i mod N]`; for the
      deferred expression, the descriptor is carried unchanged. */
  function Dispatch(target: Target, d: seq<int64>): (r: Built)
    requires Admissible(target)
    requires SupportedArity(|d|)
    ensures target.Vector? <==> r.Vec?
    ensures target.Vector? ==>
      |r.lanes| == target.lanes &&
      forall i :: 0 <= i < target.lanes ==> r.lanes[i] == d[i % |d|]
    ensures target.MakeConstExpr? ==> r == Deferred(d)
  {
    match target
    case Vector(l) => Vec(Tile(d, l))
    case MakeConstExpr => Deferred(d)
  }

  // ---------------------------------------------------------------------
  // The five entry points. Each fills a fresh descriptor slot by slot and
  // passes it to the backend; nothing outside the call is read or written.

  /** `make_int(v0)`: the one value goes to every lane. */
  method MakeInt1(v0: int64, target: Target) returns (r: Built)
    requires Admissible(target)
    ensures r == Dispatch(target, [v0])
    ensures target.Vector? ==>
      r.Vec? && |r.lanes| == target.lanes &&
      forall i :: 0 <= i < |r.lanes| ==> r.lanes[i] == v0
    ensures target.MakeConstExpr? ==> r == Deferred([v0])
  {
    var a := new int64[1];
    a[0] := v0;
    assert a[..] == [v0];
    r := Dispatch(target, a[..]);
  }

  /** `make_int(v0, v1)`: even lanes hold `v0`, odd lanes `v1`. */
  method MakeInt2(v0: int64, v1: int64, target: Target) returns (r: Built)
    requires Admissible(target)
    ensures r == Dispatch(target, [v0, v1])
    ensures target.Vector? ==>
      r.Vec? && |r.lanes| == target.lanes &&
      forall i :: 0 <= i < |r.lanes| ==> r.lanes[i] == if i % 2 == 0 then v0 else v1
    ensures target.MakeConstExpr? ==> r == Deferred([v0, v1])
  {
    var a := new int64[2];
    a[0] := v0;  a[1] := v1;
    assert a[..] == [v0, v1];
    r := Dispatch(target, a[..]);
  }

  /** `make_int(v0, .., v3)`. */
  method MakeInt4(v0: int64, v1: int64, v2: int64, v3: int64, target: Target)
    returns (r: Built)
    requires Admissible(target)
    ensures r == Dispatch(target, [v0, v1, v2, v3])
    ensures target.Vector? ==>
      r.Vec? && |r.lanes| == target.lanes &&
      forall i :: 0 <= i < |r.lanes| ==> r.lanes[i] == [v0, v1, v2, v3][i % 4]
    ensures target.MakeConstExpr? ==> r == Deferred([v0, v1, v2, v3])
  {
    var a := new int64[4];
    a[0] := v0;  a[1] := v1;  a[2] := v2;  a[3] := v3;
    assert a[..] == [v0, v1, v2, v3];
    r := Dispatch(target, a[..]);
  }

  /** `make_int(v0, .., v7)`. */
  method MakeInt8(v0: int64, v1: int64, v2: int64, v3: int64,
                  v4: int64, v5: int64, v6: int64, v7: int64, target: Target)
    returns (r: Built)
    requires Admissible(target)
    ensures r == Dispatch(target, [v0, v1, v2, v3, v4, v5, v6, v7])
    ensures target.Vector? ==>
      r.Vec? && |r.lanes| == target.lanes &&
      forall i :: 0 <= i < |r.lanes| ==> r.lanes[i] == [v0, v1, v2, v3, v4, v5, v6, v7][i % 8]
    ensures target.MakeConstExpr? ==> r == Deferred([v0, v1, v2, v3, v4, v5, v6, v7])
  {
    var a := new int64[8];
    a[0] := v0;  a[1] := v1;  a[2] := v2;  a[3] := v3;
    a[4] := v4;  a[5] := v5;  a[6] := v6;  a[7] := v7;
    assert a[..] == [v0, v1, v2, v3, v4, v5, v6, v7];
    r := Dispatch(target, a[..]);
  }

  /** `make_int(v0, .., v15)`. */
  method MakeInt16(v0: int64, v1: int64, v2: int64, v3: int64,
                   v4: int64, v5: int64, v6: int64, v7: int64,
                   v8: int64, v9: int64, v10: int64, v11: int64,
                   v12: int64, v13: int64, v14: int64, v15: int64, target: Target)
    returns (r: Built)
    requires Admissible(target)
    ensures r == Dispatch(target, [v0, v1, v2, v3, v4, v5, v6, v7,
                                   v8, v9, v10, v11, v12, v13, v14, v15])
    ensures target.Vector? ==>
      r.Vec? && |r.lanes| == target.lanes &&
      forall i :: 0 <= i < |r.lanes| ==>
        r.lanes[i] == [v0, v1, v2, v3, v4, v5, v6, v7,
                       v8, v9, v10, v11, v12, v13, v14, v15][i % 16]
    ensures target.MakeConstExpr? ==>
      r == Deferred([v0, v1, v2, v3, v4, v5, v6, v7,
                     v8, v9, v10, v11, v12, v13, v14, v15])
  {
    var a := new int64[16];
    a[0] := v0;    a[1] := v1;    a[2] := v2;    a[3] := v3;
    a[4] := v4;    a[5] := v5;    a[6] := v6;    a[7] := v7;
    a[8] := v8;    a[9] := v9;    a[10] := v10;  a[11] := v11;
    a[12] := v12;  a[13] := v13;  a[14] := v14;  a[15] := v15;
    assert a[..] == [v0, v1, v2, v3, v4, v5, v6, v7,
                     v8, v9, v10, v11, v12, v13, v14, v15];
    r := Dispatch(target, a[..]);
  }

  /** Two calls with the same arguments and target give the same result:
      no call depends on, or leaves behind, any state. */
  method SameCallSameLanes(v0: int64, v1: int64, v2: int64, v3: int64, target: Target)
    returns (first: Built, second: Built)
    requires Admissible(target)
    ensures first == second
  {
    first := MakeInt4(v0, v1, v2, v3, target);
    second := MakeInt4(v0, v1, v2, v3, target);
  }

  // ---------------------------------------------------------------------
  // Properties of the lane rule.

  /** The `static_assert` holds exactly for non-mask vectors and the deferred
      expression: a mask or any other type is refused. */
  lemma AdmissibleExactly(t: Target)
    ensures Admissible(t) <==> t.Vector? || t.MakeConstExpr?
    ensures IsMask(t) ==> !Admissible(t)
  {
  }

  /** With one value, every lane holds it, whatever the lane count. */
  lemma Broadcast(v: int64, lanes: nat)
    ensures Tile([v], lanes) == seq(lanes, _ => v)
  {
  }

  /** When the vector has no more lanes than there are values, lane `i` is
      value `i` and the values past the last lane are dropped. */
  lemma Truncate(d: seq<int64>, lanes: nat)
    requires SupportedArity(|d|)
    requires lanes <= |d|
    ensures Dispatch(Vector(lanes), d) == Vec(d[..lanes])
  {
  }

  /** A vector of exactly N lanes holds the N values in argument order. */
  lemma Exact(d: seq<int64>)
    requires SupportedArity(|d|)
    ensures Dispatch(Vector(|d|), d) == Vec(d)
  {
  }

  /** The pattern repeats: past the first N lanes, each lane equals the one
      N positions before it. */
  lemma Periodic(d: seq<int64>, lanes: nat, i: nat)
    requires |d| > 0
    requires i + |d| < lanes
    ensures Tile(d, lanes)[i + |d|] == Tile(d, lanes)[i]
  {
  }

  /** Lane `i` does not depend on how wide the vector is: a narrower vector
      holds the first lanes of a wider one. */
  lemma WidthIndependent(d: seq<int64>, narrow: nat, wide: nat)
    requires |d| > 0
    requires narrow <= wide
    ensures Tile(d, narrow) == Tile(d, wide)[..narrow]
  {
  }

  /** `k` copies of `d` one after another. */
  function Repeat(d: seq<int64>, k: nat): (r: seq<int64>)
    ensures |r| == k * |d|
  {
    if k == 0 then [] else d + Repeat(d, k - 1)
  }

  /** A vector whose width is a multiple of N holds whole copies of the
      pattern, as the documented lane diagrams show. */
  lemma {:induction false} WholeCopies(d: seq<int64>, k: nat)
    requires |d| > 0
    ensures Tile(d, k * |d|) == Repeat(d, k)
  {
    if k > 1 {
      WholeCopies(d, k - 1);
      assert k * |d| - |d| == (k - 1) * |d|;
    }
  }

  /** The 8-value diagram: lane 8 wraps around to `v0`, lane 15 is `v7`. */
  lemma EightValueWrap(d: seq<int64>, lanes: nat)
    requires |d| == 8
    requires lanes >= 16
    ensures Tile(d, lanes)[8] == d[0]
    ensures Tile(d, lanes)[15] == d[7]
  {
  }

  /** The worked examples: `(5, -3)` on 8 lanes, `(1, 2, 3, 4)` on 2 lanes and
      `7` on 16 lanes. */
  lemma Examples()
    ensures Dispatch(Vector(8), [5, -3]) == Vec([5, -3, 5, -3, 5, -3, 5, -3])
    ensures Dispatch(Vector(2), [1, 2, 3, 4]) == Vec([1, 2])
    ensures Dispatch(Vector(16), [7]) == Vec(seq(16, _ => 7))
  {
  }
}
