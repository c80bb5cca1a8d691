/** The reference formula for the shape of a sector (`canonical_shape` in the
    tests of the shape registry) and the comparison of that formula with the
    hard-coded registry that the test `test_with_shape_macro` performs. */
module CanonicalShapes {
  import opened Bits
  import opened Wrappers
  import opened SectorSizes
  import opened SectorShapes

  /** log2 of the largest arity, 8, which is also the base arity. */
  const MaxTreeLog: nat := 3
  /** log2 of the most nodes the base trees may hold together (4 GiB of nodes). */
  const LogMaxBase: nat := 27
  /** log2 of the base arity. */
  const LogBase: nat := MaxTreeLog

  function Min(a: nat, b: nat): nat
  {
    if a <= b then a else b
  }

  /** log2 of the number of nodes held in the base trees: the largest
      multiple of the base log that is at most both the node count's log and
      the base cap. */
  function LogInBase(logNodes: nat): (r: nat)
    ensures r % LogBase == 0
    ensures r <= LogMaxBase && r <= logNodes
    ensures r == LogMaxBase || logNodes < r + LogBase
  {
    Min(LogMaxBase, (logNodes / LogBase) * LogBase)
  }

  /** log2 of the sub-tree and top-tree arities; `None` for an absent level. */
  datatype UpperLogs = UpperLogs(logSub: Option<nat>, logTop: Option<nat>)

  /** Spreads the node-count bits left over by the base trees over the
      sub-tree and the top-tree levels. */
  function SplitUpper(logUpper: nat): (r: UpperLogs)
    ensures r.logSub.None? <==> logUpper == 0
    ensures r.logSub.Some? ==> 1 <= r.logSub.value <= MaxTreeLog
    ensures r.logTop.Some? ==> r.logSub == Some(MaxTreeLog) && 1 <= r.logTop.value < MaxTreeLog
    ensures r.logTop.Some? <==> logUpper > MaxTreeLog && logUpper % MaxTreeLog != 0
  {
    var logRem := logUpper % MaxTreeLog;
    if logUpper > 0 then
      if logRem == 0 then UpperLogs(Some(MaxTreeLog), None)
      else if logUpper > MaxTreeLog then UpperLogs(Some(MaxTreeLog), Some(logRem))
      else UpperLogs(Some(logRem), None)
    else UpperLogs(None, None)
  }

  /** The arity of a level given its log: `1 << l`, or 0 when absent. */
  function ArityOfLog(l: Option<nat>): (a: nat)
    ensures l.Some? && 1 <= l.value <= MaxTreeLog ==> a in {2, 4, 8}
    ensures l.None? ==> a == 0
  {
    match l
    case Some(k) => Pow2(k)
    case None => 0
  }

  /** The log of a level's arity, counting an absent level as 0. */
  function LogOrZero(l: Option<nat>): nat
  {
    match l
    case Some(k) => k
    case None => 0
  }

  /** The canonical shape of a sector of 2^logByteSize bytes, whose nodes are
      32 bytes each. */
  function CanonicalShapeOfLog(logByteSize: nat): (a: Arities)
    requires logByteSize >= 5
    ensures a.base == 8
    ensures a.sub in {0, 2, 4, 8} && a.top in {0, 2, 4}
    ensures a.top != 0 ==> a.sub == 8
    ensures a.sub == 0 <==> logByteSize - 5 - LogInBase(logByteSize - 5) == 0
  {
    var logNodes := logByteSize - 5;
    var logInBase := LogInBase(logNodes);
    var upper := SplitUpper(logNodes - logInBase);
    Arities(Pow2(LogBase), ArityOfLog(upper.logSub), ArityOfLog(upper.logTop))
  }

  /** `canonical_shape`: fails unless exactly one bit of the size is set and
      the size is at least one 32-byte node (below that the subtraction of
      the node log underflows); otherwise the shape of the formula at the
      size's log. */
  function CanonicalShape(size: u64): (r: Option<Arities>)
    ensures r.Some? <==> CountOnes(size as nat) == 1 && size >= 32
    ensures forall k: nat {:trigger Pow2(k)} :: 5 <= k && Pow2(k) == size as nat ==> r == Some(CanonicalShapeOfLog(k))
  {
    if CountOnes(size as nat) != 1 then
      assert forall k: nat {:trigger Pow2(k)} :: Pow2(k) != size as nat by {
        forall k: nat ensures Pow2(k) != size as nat {
          Pow2Bits(k);
        }
      }
      None
    else
      var logByteSize := TrailingZeros(size as nat);
      SingleBitIsPow2(size as nat);
      assert forall k: nat {:trigger Pow2(k)} :: Pow2(k) == size as nat ==> k == logByteSize by {
        forall k: nat | Pow2(k) == size as nat ensures k == logByteSize {
          Pow2Bits(k);
        }
      }
      if logByteSize < 5 then
        Pow2StrictlyIncreasing(logByteSize, 5);
        assert Pow2(5) == 32;
        None
      else
        assert Pow2(logByteSize) >= 32 by {
          if logByteSize > 5 {
            Pow2StrictlyIncreasing(5, logByteSize);
          }
        }
        Some(CanonicalShapeOfLog(logByteSize))
  }

  /** The levels of the canonical shape hold exactly the sector's nodes
      (base log + sub log + top log = node log) if and only if the sector has
      at most 2^32 nodes; beyond that the formula drops the excess bits. */
  lemma CanonicalLevelsCoverNodes(logNodes: nat)
    ensures var logInBase := LogInBase(logNodes);
            var upper := SplitUpper(logNodes - logInBase);
            logInBase + LogOrZero(upper.logSub) + LogOrZero(upper.logTop) == logNodes <==> logNodes <= 32
  {
  }

  /** `arities_to_usize`: the generic operation the test dispatches, which
      returns the arity triple it is instantiated at. */
  function AritiesToUsize(a: Arities, u: ()): Arities
  {
    a
  }

  /** Dispatching `AritiesToUsize` identifies the shape predicate that holds
      of a size: the triple returned is that predicate's triple, and only that
      predicate's. */
  lemma DispatchIdentifiesShape(n: u64)
    ensures WithShape(n, AritiesToUsize, ()) == Ok(Arities(8, 0, 0)) <==> IsSectorShapeBase(n)
    ensures WithShape(n, AritiesToUsize, ()) == Ok(Arities(8, 2, 0)) <==> IsSectorShapeSub2(n)
    ensures WithShape(n, AritiesToUsize, ()) == Ok(Arities(8, 8, 0)) <==> IsSectorShapeSub8(n)
    ensures WithShape(n, AritiesToUsize, ()) == Ok(Arities(8, 8, 2)) <==> IsSectorShapeTop2(n)
  {
    PredicatesPartition(n);
  }

  /** 2^10, 2^20 and 2^30. */
  lemma Pow2Scales()
    ensures Pow2(10) == 1024 && Pow2(20) == 1048576 && Pow2(30) == 1073741824
  {
    assert Pow2(10) == 1024;
    Pow2Add(10, 10);
    Pow2Add(20, 10);
  }

  /** log2 of a supported size. */
  function LogBytes(e: SectorSize): (k: nat)
    ensures Pow2(k) == e.Bytes() as nat
  {
    Pow2Scales();
    match e
    case KiB2 => assert Pow2(11) == 2048 by { Pow2Add(10, 1); } 11
    case KiB4 => assert Pow2(12) == 4096 by { Pow2Add(10, 2); } 12
    case KiB16 => assert Pow2(14) == 16384 by { Pow2Add(10, 4); } 14
    case KiB32 => assert Pow2(15) == 32768 by { Pow2Add(10, 5); } 15
    case MiB8 => assert Pow2(23) == 8388608 by { Pow2Add(20, 3); } 23
    case MiB16 => assert Pow2(24) == 16777216 by { Pow2Add(20, 4); } 24
    case MiB512 => assert Pow2(29) == 536870912 by { Pow2Add(20, 9); } 29
    case GiB1 => 30
    case GiB32 => assert Pow2(35) == 34359738368 by { Pow2Add(30, 5); } 35
    case GiB64 => assert Pow2(36) == 68719476736 by { Pow2Add(30, 6); } 36
  }

  /** The sizes `test_with_shape_macro` checks: all but 16 KiB and 32 KiB. */
  const TestedSizes: set<u64> :=
    {Size2KiB, Size4KiB, Size8MiB, Size16MiB, Size512MiB, Size1GiB, Size32GiB, Size64GiB}

  /** Every supported size has a canonical shape, the formula at its log. */
  lemma CanonicalShapeOfSupported(e: SectorSize)
    ensures CanonicalShape(e.Bytes()) == Some(CanonicalShapeOfLog(LogBytes(e)))
  {
  }

  /** The formula at the logs of the ten supported sizes. */
  lemma CanonicalShapeAtSupportedLogs()
    ensures CanonicalShapeOfLog(11) == Arities(8, 0, 0)
    ensures CanonicalShapeOfLog(12) == Arities(8, 2, 0)
    ensures CanonicalShapeOfLog(14) == Arities(8, 0, 0)
    ensures CanonicalShapeOfLog(15) == Arities(8, 2, 0)
    ensures CanonicalShapeOfLog(23) == Arities(8, 0, 0)
    ensures CanonicalShapeOfLog(24) == Arities(8, 2, 0)
    ensures CanonicalShapeOfLog(29) == Arities(8, 0, 0)
    ensures CanonicalShapeOfLog(30) == Arities(8, 2, 0)
    ensures CanonicalShapeOfLog(35) == Arities(8, 8, 0)
    ensures CanonicalShapeOfLog(36) == Arities(8, 8, 2)
  {
  }

  /** `test_with_shape_macro_aux`: for each tested size the dispatched triple
      is the canonical shape. */
  lemma TestWithShapeMacroAux(n: u64)
    requires n in TestedSizes
    ensures CanonicalShape(n).Some?
    ensures WithShape(n, AritiesToUsize, ()) == Ok(CanonicalShape(n).value)
  {
    var e := TryFromU64(n).value;
    CanonicalShapeOfSupported(e);
    RegistryAgreesExactlyOnTestedSizes(e);
  }

  /** The two sizes left out of the test do not agree with the formula:
      16 KiB is registered with an arity-8 sub-tree level the formula does not
      give it, and 32 KiB with a top-tree level where the formula gives an
      arity-2 sub-tree level alone. */
  lemma CanonicalShapeDivergesFromRegistry()
    ensures CanonicalShape(Size16KiB) == Some(Arities(8, 0, 0))
    ensures WithShape(Size16KiB, AritiesToUsize, ()) == Ok(Arities(8, 8, 0))
    ensures CanonicalShape(Size32KiB) == Some(Arities(8, 2, 0))
    ensures WithShape(Size32KiB, AritiesToUsize, ()) == Ok(Arities(8, 8, 2))
  {
    CanonicalShapeOfSupported(KiB16);
    CanonicalShapeOfSupported(KiB32);
    CanonicalShapeAtSupportedLogs();
    TryFromBytes(KiB16);
    TryFromBytes(KiB32);
  }

  /** Among the supported sizes, the registry agrees with the formula on
      exactly the tested ones. */
  lemma RegistryAgreesExactlyOnTestedSizes(e: SectorSize)
    ensures WithShape(e.Bytes(), AritiesToUsize, ()) == Ok(CanonicalShapeOfLog(LogBytes(e)))
            <==> e.Bytes() in TestedSizes
  {
    TryFromBytes(e);
    CanonicalShapeAtSupportedLogs();
  }
}
