# Sector-shape resolution (filecoin-proofs), modelled in Dafny

A Filecoin storage sector is proven over a Merkle tree. The tree's shape is
an arity triple (base, sub, top): the number of children per node in the
base trees, the number of base trees under one sub-tree node, and the number
of sub-trees under one top-tree node. A sub or top arity of 0 means that
level does not exist. `sector_shapes.rs` covers three things:

- **The shape registry.** Four shapes exist: Base (8,0,0), Sub2 (8,2,0),
  Sub8 (8,8,0) and Top2 (8,8,2). Each of the ten supported sector sizes gets
  one of them through a type alias. Four run-time predicates say which shape
  a raw `u64` size uses.
- **The dispatcher.** `with_shape!` converts a raw size to the `SectorSize`
  enum. `with_shape_enum!` then calls a generic function at the shape of that
  size. An unknown size panics.
- **The reference formula.** `canonical_shape` exists only in the tests. It
  computes a triple from log2 of the node count, where a node is 32 bytes.
  The base level is capped at 2^27 nodes. The remaining bits go to a sub
  level and, when that is not enough, to a top level.

The model is pure: datatypes, functions and lemmas. It has five files:

- `bits.dfy` (module `Bits`): the `u64` newtype, `Pow2`, `CountOnes` and
  `TrailingZeros`, and the lemmas linking them.
- `wrappers.dfy` (module `Wrappers`): `Option` and `Result`. They stand in
  for panics.
- `sector_sizes.dfy` (module `SectorSizes`): the ten size constants, the
  `SectorSize` enum and its fallible conversion from `u64`. These belong to
  other parts of the crate (`constants`, `types`). They are modelled from
  their names only.
- `sector_shapes.dfy` (module `SectorShapes`): the shapes and aliases, the
  four predicates, and the dispatcher.
- `canonical_shape.dfy` (module `CanonicalShapes`): the test formula,
  `arities_to_usize`, and the test's comparison of the formula with the
  registry.

The generic function `F` is a Dafny function parameter `f: (Arities, A) -> R`.
It receives the arity triple and one forwarded argument value. A panic
becomes `None` or `Err(UnsupportedSectorSize(n))`.

The comment at `sector_shapes.rs:136-137` calls the formula consistent with
the hard-coded size-to-shape mappings. The code does not bear this out for
every size: its test checks only eight sizes and leaves out 16 KiB and
32 KiB. The model proves what the code does:

- `TestWithShapeMacroAux` proves agreement on the eight tested sizes.
- `CanonicalShapeDivergesFromRegistry` proves that the other two differ.
  16 KiB gives (8,0,0) by the formula but is registered as Sub8. 32 KiB
  gives (8,2,0) by the formula but is registered as Top2.
- `RegistryAgreesExactlyOnTestedSizes` proves that, among the ten, the
  formula and the registry agree exactly on the tested eight.

`CanonicalLevelsCoverNodes` shows a limit of the formula. The sum of the
three level logs equals the node log only up to 2^32 nodes (128 GiB sectors).
Beyond that, the formula drops bits.

Every member is a pure function of its inputs, so calling it twice with the
same input gives the same result by construction.

## Model

| member | source | states |
|---|---|---|
| Bits.Pow2 | filecoin-proofs/src/types/sector_shapes.rs:177-179 | `1 << k` is at least 1 |
| Bits.CountOnes | filecoin-proofs/src/types/sector_shapes.rs:138 | `count_ones` is 0 exactly for 0 and never exceeds its argument |
| Bits.TrailingZeros | filecoin-proofs/src/types/sector_shapes.rs:139 | `trailing_zeros` of a non-zero value is below the value |
| Bits.Pow2Bits | filecoin-proofs/src/types/sector_shapes.rs:138-139 | 2^k has exactly one bit set, and its trailing-zero count is k |
| Bits.SingleBitIsPow2 | filecoin-proofs/src/types/sector_shapes.rs:138-139 | a value with one bit set is 2^(trailing zeros), so the log the formula uses is exact |
| Bits.Pow2StrictlyIncreasing | filecoin-proofs/src/types/sector_shapes.rs:139-140 | 2^a < 2^b when a < b; this links `size >= 32` to `trailing_zeros >= 5` |
| Bits.Pow2Add | filecoin-proofs/src/types/sector_shapes.rs:5-8 | 2^(a+b) = 2^a * 2^b; used to show that each KiB/MiB/GiB constant is a power of two |
| SectorSizes.SectorSize.Bytes | filecoin-proofs/src/types/sector_shapes.rs:5-8 | each enum variant's byte size is one of the ten supported sizes |
| SectorSizes.TryFromU64 | filecoin-proofs/src/types/sector_shapes.rs:119 | the conversion succeeds exactly for the ten supported sizes, and the variant it returns has that byte size |
| SectorSizes.TryFromBytes | filecoin-proofs/src/types/sector_shapes.rs:119 | converting a variant's byte size back gives the same variant |
| SectorShapes.Shape.Arity | filecoin-proofs/src/types/sector_shapes.rs:14-17 | every shape has base arity 8, sub in {0,2,8}, top in {0,2}, and no top level without a sub level |
| SectorShapes.IsSectorShapeBase | filecoin-proofs/src/types/sector_shapes.rs:34-39 | true exactly for the supported sizes that the dispatcher's alias table (lines 20-32) sends to Base |
| SectorShapes.IsSectorShapeSub2 | filecoin-proofs/src/types/sector_shapes.rs:41-46 | true exactly for the supported sizes that the alias table sends to Sub2 |
| SectorShapes.IsSectorShapeSub8 | filecoin-proofs/src/types/sector_shapes.rs:48-53 | true exactly for the supported sizes that the alias table sends to Sub8 |
| SectorShapes.IsSectorShapeTop2 | filecoin-proofs/src/types/sector_shapes.rs:55-60 | true exactly for the supported sizes that the alias table sends to Top2 |
| SectorShapes.PredicatesPartition | filecoin-proofs/src/types/sector_shapes.rs:34-60 | exactly one predicate holds for each supported size, and none holds for any other `u64` |
| SectorShapes.ShapeOf | filecoin-proofs/src/types/sector_shapes.rs:71-101 | through the per-size aliases at lines 20-32, the shape alias each arm of the `with_shape_enum!` match instantiates F at; it carries no contract of its own, and the four predicates' contracts and `WithShapeEnum`'s state what it selects |
| SectorShapes.WithShapeEnum | filecoin-proofs/src/types/sector_shapes.rs:65-108 | F's result is returned unchanged, computed at (8,0,0), (8,2,0), (8,8,0) or (8,8,2) when the base, sub2, sub8 or top2 predicate holds of the variant's size |
| SectorShapes.WithShape | filecoin-proofs/src/types/sector_shapes.rs:113-126 | fails with `UnsupportedSectorSize(n)` exactly for sizes outside the ten, and that result does not depend on F; otherwise returns F's result at the triple that the matching predicate names |
| CanonicalShapes.LogInBase | filecoin-proofs/src/types/sector_shapes.rs:142-146 | `log_in_base` is a multiple of 3, at most 27 and at most `log_nodes`, and is the largest such value |
| CanonicalShapes.SplitUpper | filecoin-proofs/src/types/sector_shapes.rs:148-175 | a sub level exists exactly when `log_upper > 0`; its log is in 1..3; a top level exists exactly when `log_upper > 3` and is not a multiple of 3, and then the sub log is 3 and the top log is 1 or 2 |
| CanonicalShapes.ArityOfLog | filecoin-proofs/src/types/sector_shapes.rs:178-179 | a present level with log in 1..3 has arity 2, 4 or 8; an absent level has arity 0 |
| CanonicalShapes.CanonicalShapeOfLog | filecoin-proofs/src/types/sector_shapes.rs:139-181 | base is 8; sub is in {0,2,4,8} and top in {0,2,4}; top ≠ 0 implies sub = 8; sub = 0 exactly when `log_nodes - log_in_base = 0` |
| CanonicalShapes.CanonicalShape | filecoin-proofs/src/types/sector_shapes.rs:135-182 | succeeds exactly when one bit is set and the size is at least 32; for size 2^k it gives the formula at k |
| CanonicalShapes.CanonicalLevelsCoverNodes | filecoin-proofs/src/types/sector_shapes.rs:146-175 | the base, sub and top logs add up to `log_nodes` if and only if `log_nodes <= 32` |
| CanonicalShapes.AritiesToUsize | filecoin-proofs/src/types/sector_shapes.rs:184-190 | the identity on the arity triple it is instantiated at; it carries no contract |
| CanonicalShapes.DispatchIdentifiesShape | filecoin-proofs/src/types/sector_shapes.rs:184-190 | dispatching `arities_to_usize` returns a shape's triple if and only if that shape's predicate holds |
| CanonicalShapes.LogBytes | filecoin-proofs/src/types/sector_shapes.rs:139 | each supported size is 2^k for its stated k (11, 12, 14, 15, 23, 24, 29, 30, 35, 36) |
| CanonicalShapes.CanonicalShapeOfSupported | filecoin-proofs/src/types/sector_shapes.rs:138-140 | every supported size passes the one-bit assertion and the underflow point, and its canonical shape is the formula at its log |
| CanonicalShapes.CanonicalShapeAtSupportedLogs | filecoin-proofs/src/types/sector_shapes.rs:139-181 | the formula's value at each of the ten sizes' logs |
| CanonicalShapes.TestWithShapeMacroAux | filecoin-proofs/src/types/sector_shapes.rs:192-212 | for each of the eight tested sizes, the dispatched triple equals `canonical_shape` |
| CanonicalShapes.CanonicalShapeDivergesFromRegistry | filecoin-proofs/src/types/sector_shapes.rs:28-31 | the formula gives 16 KiB (8,0,0) and 32 KiB (8,2,0), but the registry dispatches them at (8,8,0) and (8,8,2) |
| CanonicalShapes.RegistryAgreesExactlyOnTestedSizes | filecoin-proofs/src/types/sector_shapes.rs:193-201 | among the ten supported sizes, the dispatched triple equals the formula exactly for the eight sizes the test lists |

## Left out

- `LCTree`, `DefaultTreeHasher`, `MerkleTreeTrait` and the `U0`/`U2`/`U8` typenum types: foreign type-level machinery. A shape is modelled only as its arity triple.
- Macro mechanics: variadic argument forwarding becomes one argument value of a type parameter `A`, and `#[allow(unreachable_patterns)]` has no counterpart. Monomorphisation becomes passing the triple to `f`.
- The `_ => panic!` arm of `with_shape_enum!` (line 102) cannot be reached, because the modelled enum has exactly the ten variants. The panic at line 119 is the only failure, modelled as `Err`.
- Panics as process aborts, and the panic messages: they become `None`/`Err` values.
- CanonicalShapes.CanonicalShape: the `u32` subtraction at line 140 underflows for sizes below 32. This is modelled as the debug-build panic (`None`). The release-build wrap-around is not modelled.
- Bits.TrailingZeros: the value `trailing_zeros` returns for 0 (64) is not modelled. Its only caller has already checked that exactly one bit is set.
- F's own effects, panics and concurrency: `f` is a total pure function.
- The `SectorSize` enum and its `TryFrom<u64>` are not part of this source file. They are modelled as a ten-variant datatype and a partial map built from the constants' names.
