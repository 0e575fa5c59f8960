# make_int: vectors from integer constants

This project models libsimdpp's `make_int` family (`simdpp/core/make_int.h`).
`make_int` builds a SIMD vector from one, two, four, eight or sixteen signed
64-bit values. There is one overload per arity N. Each overload does three things:

- A `static_assert` checks that the requested type `V` is a vector and not a
  mask, or is the deferred make-const expression (`expr_vec_make_const`).
  When the caller gives no `V`, that deferred expression is the default.
- A fresh descriptor `expr_vec_make_const<int64_t, N>` is filled slot by slot
  with the arguments.
- The descriptor goes to the backend `i_make_const_dispatch<V>::run`.

The backend's documented lane rule is the heart of the model. For a vector of
L lanes, lane `i` holds `values[i mod N]`. So a single value is broadcast to
every lane, a short pattern repeats, and values past the last lane are dropped.

In Dafny (`make_int.dfy`, module `MakeInt`):

- `Target` stands for the kind of the type `V`: `Vector(lanes)`, `Mask(lanes)`,
  `MakeConstExpr` or `Other`. `IsVector`, `IsMask` and `IsMakeConstExpr` stand
  for the type traits. `Admissible` is the `static_assert` condition.
- The `static_assert` is a compile-time check with no runtime error path.
  It becomes a `requires Admissible(target)` on each entry point, so a call
  with a mask target is refused before any value is built.
- `Built` is what a call yields: `Vec(lanes)` for a vector target, or
  `Deferred(values)` for the deferred expression.
- `Tile` is an independent reference definition of the lane rule: write the
  pattern out again and again, then cut it at L lanes. Its contract proves that
  this equals the rule `lane i = values[i mod N]`.
- `Dispatch` is the backend's documented contract, defined through `Tile`.
- `MakeInt1`, `MakeInt2`, `MakeInt4`, `MakeInt8` and `MakeInt16` are the five
  overloads. Each allocates a fresh `array<int64>` of length N, assigns the
  slots in argument order as the source does, and passes `a[..]` to `Dispatch`.
  There is no entry point for any other argument count. The methods have no
  `modifies` clause, so they change no state that exists before the call.

## Model

| member | source | states |
|---|---|---|
| `MakeInt.Tile` | simdpp/core/make_int.h:54-79 | repeating the pattern and cutting it gives exactly L lanes, and lane `i` equals `values[i mod N]` |
| `MakeInt.Dispatch` | simdpp/core/make_int.h:44-80 | the backend yields a vector exactly when `V` is a vector, with `target.lanes` lanes where lane `i` is `d[i mod N]`; for the deferred expression it carries the descriptor unchanged |
| `MakeInt.MakeInt1` | simdpp/core/make_int.h:82-91 | for a non-mask vector or the deferred expression, the one-slot descriptor holds `v0`; every lane of a vector result equals `v0`, for any lane count; the default target yields `Deferred([v0])` |
| `MakeInt.MakeInt2` | simdpp/core/make_int.h:93-102 | the descriptor holds `v0, v1` in order; even lanes are `v0` and odd lanes `v1`; the default target yields `Deferred([v0, v1])` |
| `MakeInt.MakeInt4` | simdpp/core/make_int.h:104-113 | the descriptor holds `v0..v3` in order; lane `i` is `v(i mod 4)`; the default target yields the four values unchanged |
| `MakeInt.MakeInt8` | simdpp/core/make_int.h:115-126 | the descriptor holds `v0..v7` in order; lane `i` is `v(i mod 8)`; the default target yields the eight values unchanged |
| `MakeInt.MakeInt16` | simdpp/core/make_int.h:128-143 | the descriptor holds `v0..v15` in order; lane `i` is `v(i mod 16)`; the default target yields the sixteen values unchanged |
| `MakeInt.SameCallSameLanes` | simdpp/core/make_int.h:104-113 | two calls with the same arguments and the same target give equal results, because a call reads and leaves no state |
| `MakeInt.AdmissibleExactly` | simdpp/core/make_int.h:85-87 | the `static_assert` admits exactly non-mask vectors and the deferred expression; every mask is refused |
| `MakeInt.Broadcast` | simdpp/core/make_int.h:57-61 | tiling one value over any number of lanes gives that value in every lane |
| `MakeInt.Truncate` | simdpp/core/make_int.h:54-55 | with L ≤ N, the vector holds the first L values and the rest are dropped without error |
| `MakeInt.Exact` | simdpp/core/make_int.h:63-73 | with L = N, the vector holds the N values in argument order |
| `MakeInt.Periodic` | simdpp/core/make_int.h:63-79 | past the first N lanes, lane `i + N` equals lane `i` |
| `MakeInt.WidthIndependent` | simdpp/core/make_int.h:54-55 | lane `i` does not depend on the vector width: a narrower vector holds the first lanes of a wider one |
| `MakeInt.WholeCopies` | simdpp/core/make_int.h:63-79 | a vector of k·N lanes is k whole copies of the pattern |
| `MakeInt.EightValueWrap` | simdpp/core/make_int.h:75-79 | in the 8-value version, lane 8 is `v0` again and lane 15 is `v7` |
| `MakeInt.Examples` | simdpp/core/make_int.h:54-79 | `(5, -3)` on 8 lanes gives `5 -3 5 -3 5 -3 5 -3`; `(1, 2, 3, 4)` on 2 lanes gives `1 2`; `7` on 16 lanes gives sixteen 7s |

## Left out

- The backend `i_make_const_dispatch` (`simdpp/detail/insn/make_const.h`) is not part of this model. Only its documented lane rule is modelled, as `Dispatch`. Its per-architecture instruction selection is left out.
- The type traits `is_vector`, `is_mask` and `is_expr_vec_make_const` are replaced by the `Target` datatype and three predicates. The lane count of a vector type is a field of `Vector`.
- Converting the `int64_t` arguments to the target's element type (narrowing to 8-, 16- or 32-bit lanes, or to floating point) is left out. Lanes keep 64-bit integer values.
- The deferred target `MakeConstExpr` carries no arity. An explicit `V` that is a make-const expression of a different arity than the call is handled by the backend, which is not modelled. The model always returns the call's own N values for it.
- How a deferred expression is later evaluated when it is assigned to a vector is done outside this file and is not modelled.
- The compile-time and performance claims (a single load from memory, no overhead at low optimisation levels) concern code generation, not behaviour.
- The include guards, the `#error` check for inclusion through `simd.h`, and the namespace and documentation macros are left out.
