/** The supported sector sizes and the `SectorSize` enumeration with its
    conversion from a raw `u64`. Both belong to other parts of the crate
    (`crate::constants` and `crate::types`); they are modelled here from
    their names so that the shape registry has something to consume. */
module SectorSizes {
  import opened Bits
  import opened Wrappers

  const Size2KiB: u64 := 2048
  const Size4KiB: u64 := 4096
  const Size16KiB: u64 := 16384
  const Size32KiB: u64 := 32768
  const Size8MiB: u64 := 8 * 1024 * 1024
  const Size16MiB: u64 := 16 * 1024 * 1024
  const Size512MiB: u64 := 512 * 1024 * 1024
  const Size1GiB: u64 := 1024 * 1024 * 1024
  const Size32GiB: u64 := 32 * 1024 * 1024 * 1024
  const Size64GiB: u64 := 64 * 1024 * 1024 * 1024

  /** The ten byte sizes a sector may have. */
  const SupportedSizes: set<u64> :=
    {Size2KiB, Size4KiB, Size16KiB, Size32KiB, Size8MiB,
     Size16MiB, Size512MiB, Size1GiB, Size32GiB, Size64GiB}

  /** One variant per supported size. */
  datatype SectorSize =
    | KiB2 | KiB4 | KiB16 | KiB32
    | MiB8 | MiB16 | MiB512
    | GiB1 | GiB32 | GiB64
  {
    /** The byte size the variant stands for. */
    function Bytes(): (n: u64)
      ensures n in SupportedSizes
    {
      match this
      case KiB2 => Size2KiB
      case KiB4 => Size4KiB
      case KiB16 => Size16KiB
      case KiB32 => Size32KiB
      case MiB8 => Size8MiB
      case MiB16 => Size16MiB
      case MiB512 => Size512MiB
      case GiB1 => Size1GiB
      case GiB32 => Size32GiB
      case GiB64 => Size64GiB
    }
  }

  /** `TryFrom<u64> for SectorSize`: the variant of a supported size, and
      nothing for any other value. */
  function TryFromU64(n: u64): (r: Option<SectorSize>)
    ensures r.Some? <==> n in SupportedSizes
    ensures r.Some? ==> r.value.Bytes() == n
  {
    if n == Size2KiB then Some(KiB2)
    else if n == Size4KiB then Some(KiB4)
    else if n == Size16KiB then Some(KiB16)
    else if n == Size32KiB then Some(KiB32)
    else if n == Size8MiB then Some(MiB8)
    else if n == Size16MiB then Some(MiB16)
    else if n == Size512MiB then Some(MiB512)
    else if n == Size1GiB then Some(GiB1)
    else if n == Size32GiB then Some(GiB32)
    else if n == Size64GiB then Some(GiB64)
    else None
  }

  /** Converting a variant's byte size back gives the same variant, so the
      ten sizes are distinct. */
  lemma TryFromBytes(e: SectorSize)
    ensures TryFromU64(e.Bytes()) == Some(e)
  {
  }
}
