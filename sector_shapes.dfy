/** The shape registry and the shape dispatcher of a sector: which of the
    four Merkle-tree shapes a sector of a given byte size is built with, and
    the `with_shape!` / `with_shape_enum!` routing that runs a generic
    operation at the shape of a size only known at run time. */
module SectorShapes {
  import opened Bits
  import opened Wrappers
  import opened SectorSizes

  /** The arities of a tree shape: children per node in the base trees, base
      trees per sub-tree node and sub-trees per top-tree node. A sub or top
      arity of 0 means that level is absent. */
  datatype Arities = Arities(base: nat, sub: nat, top: nat)

  /** The four generic shapes, each an `LCTree` over the default hasher. */
  datatype Shape = Base | Sub2 | Sub8 | Top2
  {
    /** The arity triple of the shape's `LCTree<_, U8, _, _>` instance. */
    function Arity(): (a: Arities)
      ensures a.base == 8
      ensures a.sub in {0, 2, 8} && a.top in {0, 2}
      ensures a.top != 0 ==> a.sub != 0
    {
      match this
      case Base => Arities(8, 0, 0)
      case Sub2 => Arities(8, 2, 0)
      case Sub8 => Arities(8, 8, 0)
      case Top2 => Arities(8, 8, 2)
    }
  }

  /** The per-size shape aliases. */
  const SectorShape2KiB: Shape := Base
  const SectorShape8MiB: Shape := Base
  const SectorShape512MiB: Shape := Base

  const SectorShape4KiB: Shape := Sub2
  const SectorShape16MiB: Shape := Sub2
  const SectorShape1GiB: Shape := Sub2

  const SectorShape16KiB: Shape := Sub8
  const SectorShape32GiB: Shape := Sub8

  const SectorShape32KiB: Shape := Top2
  const SectorShape64GiB: Shape := Top2

  /** The shape alias `with_shape_enum!` instantiates its function at, one
      arm per variant. */
  function ShapeOf(e: SectorSize): Shape
  {
    match e
    case KiB2 => SectorShape2KiB
    case KiB4 => SectorShape4KiB
    case KiB16 => SectorShape16KiB
    case KiB32 => SectorShape32KiB
    case MiB8 => SectorShape8MiB
    case MiB16 => SectorShape16MiB
    case MiB512 => SectorShape512MiB
    case GiB1 => SectorShape1GiB
    case GiB32 => SectorShape32GiB
    case GiB64 => SectorShape64GiB
  }

  /** True when a size uses the base shape; agrees with the alias the
      dispatcher picks for that size. */
  function IsSectorShapeBase(n: u64): (r: bool)
    ensures r <==> n in SupportedSizes && ShapeOf(TryFromU64(n).value) == Base
  {
    n == Size2KiB || n == Size8MiB || n == Size512MiB
  }

  /** True when a size uses the shape with a sub-tree level of arity 2. */
  function IsSectorShapeSub2(n: u64): (r: bool)
    ensures r <==> n in SupportedSizes && ShapeOf(TryFromU64(n).value) == Sub2
  {
    n == Size4KiB || n == Size16MiB || n == Size1GiB
  }

  /** True when a size uses the shape with a sub-tree level of arity 8. */
  function IsSectorShapeSub8(n: u64): (r: bool)
    ensures r <==> n in SupportedSizes && ShapeOf(TryFromU64(n).value) == Sub8
  {
    n == Size16KiB || n == Size32GiB
  }

  /** True when a size uses the shape with a top-tree level of arity 2. */
  function IsSectorShapeTop2(n: u64): (r: bool)
    ensures r <==> n in SupportedSizes && ShapeOf(TryFromU64(n).value) == Top2
  {
    n == Size32KiB || n == Size64GiB
  }

  /** How many of the four shape predicates hold of a size. */
  function PredicatesHolding(n: u64): nat
  {
    (if IsSectorShapeBase(n) then 1 else 0) + (if IsSectorShapeSub2(n) then 1 else 0)
    + (if IsSectorShapeSub8(n) then 1 else 0) + (if IsSectorShapeTop2(n) then 1 else 0)
  }

  /** The four predicates partition the supported sizes: exactly one holds of
      a supported size and none of any other value. */
  lemma PredicatesPartition(n: u64)
    ensures PredicatesHolding(n) == if n in SupportedSizes then 1 else 0
    ensures n !in SupportedSizes ==>
      !IsSectorShapeBase(n) && !IsSectorShapeSub2(n) && !IsSectorShapeSub8(n) && !IsSectorShapeTop2(n)
  {
  }

  /** The fault of the dispatcher. */
  datatype DispatchError = UnsupportedSectorSize(size: u64)

  /** `with_shape_enum!`: runs `f` at the shape of a sector-size variant,
      forwarding `args` and returning `f`'s result unchanged. The arity `f`
      receives is the one the matching shape predicate names. */
  function WithShapeEnum<A, R>(size: SectorSize, f: (Arities, A) -> R, args: A): (r: R)
    ensures IsSectorShapeBase(size.Bytes()) ==> r == f(Arities(8, 0, 0), args)
    ensures IsSectorShapeSub2(size.Bytes()) ==> r == f(Arities(8, 2, 0), args)
    ensures IsSectorShapeSub8(size.Bytes()) ==> r == f(Arities(8, 8, 0), args)
    ensures IsSectorShapeTop2(size.Bytes()) ==> r == f(Arities(8, 8, 2), args)
  {
    TryFromBytes(size);
    f(ShapeOf(size).Arity(), args)
  }

  /** `with_shape!`: converts a raw size to its variant and dispatches on it.
      An unsupported size is an error whose value does not depend on `f`,
      so `f` is not run for it. */
  function WithShape<A, R>(n: u64, f: (Arities, A) -> R, args: A): (r: Result<R, DispatchError>)
    ensures r.Err? <==> n !in SupportedSizes
    ensures r.Err? ==> r.error == UnsupportedSectorSize(n)
    ensures IsSectorShapeBase(n) ==> r == Ok(f(Arities(8, 0, 0), args))
    ensures IsSectorShapeSub2(n) ==> r == Ok(f(Arities(8, 2, 0), args))
    ensures IsSectorShapeSub8(n) ==> r == Ok(f(Arities(8, 8, 0), args))
    ensures IsSectorShapeTop2(n) ==> r == Ok(f(Arities(8, 8, 2), args))
  {
    match TryFromU64(n)
    case None => Err(UnsupportedSectorSize(n))
    case Some(e) => Ok(WithShapeEnum(e, f, args))
  }
}
