/** The memory-protection table the first-stage boot loader programs (MPU_Config):
    three regions and three memory-attribute entries, for the two board variants
    selected by DK_BOARD. A region covers the addresses base..limit inclusive; the
    ARMv8-M MPU works on 32-byte granules, so a base is a multiple of 32 and a limit
    is one below a multiple of 32. */
module Mpu {

  datatype Option<T> = None | Some(value: T)

  /** A 32-bit address. */
  type Word = x: nat | x < 0x1_0000_0000

  /** DK_BOARD == 1 (the discovery kit) or any other value (the custom board). */
  datatype Board = DiscoveryKit | CustomBoard

  /** MPU_REGION_PRIV_RW, MPU_REGION_ALL_RW, MPU_REGION_PRIV_RO, MPU_REGION_ALL_RO. */
  datatype AccessPermission = PrivRw | AllRw | PrivRo | AllRo

  /** MPU_ACCESS_NOT_SHAREABLE, MPU_ACCESS_OUTER_SHAREABLE, MPU_ACCESS_INNER_SHAREABLE. */
  datatype Shareability = NotShareable | OuterShareable | InnerShareable

  /** MPU_Region_InitTypeDef. The two execute-never fields hold true for the
      *_ACCESS_DISABLE settings. */
  datatype RegionInit = RegionInit(
    enable: bool,
    number: nat,
    baseAddress: Word,
    limitAddress: Word,
    attributesIndex: nat,
    accessPermission: AccessPermission,
    disableExec: bool,
    disablePrivExec: bool,
    shareable: Shareability)

  /** `MPU_Region_InitTypeDef MPU_InitStruct = {0}`: every field at its zero code
      (region disabled, privileged read/write, execution allowed, not shareable). */
  const ZeroRegionInit: RegionInit := RegionInit(false, 0, 0, 0, 0, PrivRw, false, false, NotShareable)

  datatype CachePolicy = WriteBack | WriteThrough | NonCacheable

  /** The cache attributes of one level (inner or outer) of normal memory. */
  datatype CacheAttributes = CacheAttributes(policy: CachePolicy, transient: bool, readAllocate: bool, writeAllocate: bool)

  /** What an attribute byte of MPU_MAIR0/1 means: normal memory with inner and outer
      attributes, or Device-nGnRnE (no gathering, no reordering, no early write
      acknowledgement). */
  datatype MemoryAttributes =
    | Normal(inner: CacheAttributes, outer: CacheAttributes)
    | DeviceNGnRnE

  /** The HAL attribute codes, which are the nibble codes of the ARMv8-M MAIR
      encoding: MPU_WRITE_THROUGH / MPU_WRITE_BACK (bit 2), MPU_TRANSIENT /
      MPU_NON_TRANSIENT (bit 3), MPU_RW_ALLOCATE (bits 1 and 0), and the whole-byte
      MPU_DEVICE_NGNRNE. */
  const MpuWriteThrough: bv8 := 0x00
  const MpuWriteBack: bv8 := 0x04
  const MpuTransient: bv8 := 0x00
  const MpuNonTransient: bv8 := 0x08
  const MpuRwAllocate: bv8 := 0x03
  const MpuDeviceNGnRnE: bv8 := 0x00

  /** INNER_OUTER(x): the attribute nibble x copied into the outer (high) and the
      inner (low) half of the attribute byte. */
  function InnerOuter(x: bv8): (b: bv8)
    requires x < 16
    ensures b & 0x0F == x && b >> 4 == x
  {
    x | (x << 4)
  }

  /** The meaning of a non-zero nibble of normal memory: 0100 is non-cacheable;
      otherwise bit 3 clear means transient, bit 2 write-back (else write-through),
      bits 1 and 0 read and write allocation. */
  function DecodeNibble(n: bv8): CacheAttributes
    requires 0 < n < 16
  {
    if n == 4 then CacheAttributes(NonCacheable, false, false, false)
    else CacheAttributes(if n & 4 == 0 then WriteThrough else WriteBack, n & 8 == 0, n & 2 != 0, n & 1 != 0)
  }

  /** The meaning of an attribute byte: a zero outer nibble is device memory, of
      which this model knows Device-nGnRnE (0x00); a non-zero outer nibble with a
      non-zero inner nibble is normal memory. The other encodings are not used by the
      boot loader and decode to None. */
  function DecodeAttributes(b: bv8): Option<MemoryAttributes>
  {
    if b >> 4 == 0 then (if b == 0 then Some(DeviceNGnRnE) else None)
    else if b & 0x0F == 0 then None
    else Some(Normal(DecodeNibble(b & 0x0F), DecodeNibble(b >> 4)))
  }

  /** INNER_OUTER of a normal-memory nibble gives normal memory whose inner and
      outer levels have the attributes of that nibble. */
  lemma InnerOuterDecodes(x: bv8)
    requires 0 < x < 16
    ensures DecodeAttributes(InnerOuter(x)) == Some(Normal(DecodeNibble(x), DecodeNibble(x)))
  {
    var b := InnerOuter(x);
    assert b >> 4 == x && b & 0x0F == x;
  }

  /** MPU_Attributes_InitTypeDef: the entry number and the attribute byte. */
  datatype AttributesInit = AttributesInit(number: nat, attributes: bv8)

  /** `MPU_Attributes_InitTypeDef MPU_AttributesInit = {0}`: entry 0, attribute byte 0
      (Device-nGnRnE). */
  const ZeroAttributesInit: AttributesInit := AttributesInit(0, 0)

  /** The control value of HAL_MPU_Enable: whether the default memory map is a
      background region for privileged code, and whether the MPU stays on in
      HardFault and NMI handlers. */
  datatype MpuControl = MpuControl(privilegedDefault: bool, hardFaultNmi: bool)

  /** MPU_PRIVILEGED_DEFAULT. */
  const PrivilegedDefault: MpuControl := MpuControl(true, false)

  /** The meanings of MPU_WRITE_BACK | MPU_TRANSIENT | MPU_RW_ALLOCATE and of its
      write-through counterpart. */
  const WriteBackRwAllocate: CacheAttributes := CacheAttributes(WriteBack, true, true, true)
  const WriteThroughRwAllocate: CacheAttributes := CacheAttributes(WriteThrough, true, true, true)

  // ---- The table as programmed -------------------------------------------------

  function Region0Limit(board: Board): Word
  {
    if board == DiscoveryKit then 0x77FF_FFFF else 0x71FF_FFFF
  }

  function Region1Limit(board: Board): Word
  {
    if board == DiscoveryKit then 0x91FF_FFFF else 0x93FF_FFFF
  }

  /** The three regions with every field written out. Region 1 is stated in full
      here; the code builds it by changing five fields of region 0. */
  function RegionTable(board: Board): seq<RegionInit>
  {
    [ RegionInit(true, 0, 0x7000_0000, Region0Limit(board), 0, AllRw, false, false, NotShareable),
      RegionInit(true, 1, 0x9000_0000, Region1Limit(board), 1, PrivRw, false, false, NotShareable),
      RegionInit(true, 2, 0x342E_0000, 0x3434_FFFF, 2, AllRw, true, true, OuterShareable) ]
  }

  /** The three attribute bytes as MPU_Config computes them. */
  function AttributeTable(): seq<bv8>
  {
    [InnerOuter(MpuWriteBack | MpuTransient | MpuRwAllocate),
     InnerOuter(MpuWriteThrough | MpuTransient | MpuRwAllocate),
     MpuDeviceNGnRnE]
  }

  // ---- What a table must satisfy --------------------------------------------------

  predicate Contains(r: RegionInit, a: Word)
  {
    r.baseAddress <= a <= r.limitAddress
  }

  /** base <= limit, both on 32-byte granule boundaries, and region i is entry i. */
  predicate RegionWellFormed(table: seq<RegionInit>, i: nat)
    requires i < |table|
  {
    && table[i].number == i
    && table[i].baseAddress <= table[i].limitAddress
    && table[i].baseAddress % 32 == 0
    && (table[i].limitAddress + 1) % 32 == 0
  }

  predicate Disjoint(r: RegionInit, s: RegionInit)
  {
    r.limitAddress < s.baseAddress || s.limitAddress < r.baseAddress
  }

  predicate TableWellFormed(table: seq<RegionInit>)
  {
    && (forall i | 0 <= i < |table| :: RegionWellFormed(table, i))
    && (forall i, j | 0 <= i < j < |table| :: Disjoint(table[i], table[j]))
  }

  /** The enabled region an address falls in, searched from entry `from` on. In a
      table of disjoint regions the answer is the only one. */
  function RegionOf(table: seq<RegionInit>, a: Word, from: nat): (r: Option<nat>)
    requires from <= |table|
    ensures r.Some? ==> from <= r.value < |table| && table[r.value].enable && Contains(table[r.value], a)
    ensures r.None? <==> forall i | from <= i < |table| :: !(table[i].enable && Contains(table[i], a))
    decreases |table| - from
  {
    if from == |table| then None
    else if table[from].enable && Contains(table[from], a) then Some(from)
    else RegionOf(table, a, from + 1)
  }

  /** Disjoint regions never both claim an address: the region found is the only
      enabled region containing it. */
  lemma RegionOfUnique(table: seq<RegionInit>, a: Word, i: nat)
    requires TableWellFormed(table)
    requires i < |table| && table[i].enable && Contains(table[i], a)
    ensures RegionOf(table, a, 0) == Some(i)
  {
    var r := RegionOf(table, a, 0);
    assert r.Some?;
  }

  /** Whether code may be fetched from an address: outside every region the
      privileged default map decides (MPU_PRIVILEGED_DEFAULT), inside one its
      execute-never bits do. */
  function Executable(table: seq<RegionInit>, a: Word, privileged: bool): bool
  {
    match RegionOf(table, a, 0)
    case None => privileged
    case Some(i) => if privileged then !table[i].disablePrivExec else !table[i].disableExec
  }

  // ---- The table's properties, for both boards ------------------------------------

  /** Every region has base <= limit on granule boundaries, and the three ranges are
      pairwise disjoint. */
  lemma RegionTableWellFormed(board: Board)
    ensures |RegionTable(board)| == 3
    ensures TableWellFormed(RegionTable(board))
  {
    var t := RegionTable(board);
    assert RegionWellFormed(t, 0) && RegionWellFormed(t, 1) && RegionWellFormed(t, 2);
    assert Disjoint(t[0], t[1]) && Disjoint(t[0], t[2]) && Disjoint(t[1], t[2]);
  }

  /** Region i uses attribute entry i. The entries are the bytes 0x77, 0x33 and 0x00,
      which mean normal write-back memory for region 0, normal write-through memory
      for region 1 (both transient with read and write allocation, at the inner and
      the outer level alike) and Device-nGnRnE for region 2. */
  lemma RegionAttributes(board: Board)
    ensures forall i | 0 <= i < 3 :: RegionTable(board)[i].attributesIndex == i
    ensures AttributeTable() == [0x77, 0x33, 0x00]
    ensures DecodeAttributes(AttributeTable()[RegionTable(board)[0].attributesIndex])
      == Some(Normal(WriteBackRwAllocate, WriteBackRwAllocate))
    ensures DecodeAttributes(AttributeTable()[RegionTable(board)[1].attributesIndex])
      == Some(Normal(WriteThroughRwAllocate, WriteThroughRwAllocate))
    ensures DecodeAttributes(AttributeTable()[RegionTable(board)[2].attributesIndex]) == Some(DeviceNGnRnE)
  {
    InnerOuterDecodes(MpuWriteBack | MpuTransient | MpuRwAllocate);
    InnerOuterDecodes(MpuWriteThrough | MpuTransient | MpuRwAllocate);
  }

  /** Region 2 is AXISRAM5: 0x342E0000..0x3434FFFF, 0x70000 bytes, device memory,
      outer-shareable, with execution disabled for every privilege level. */
  lemma DeviceRegion(board: Board)
    ensures var r := RegionTable(board)[2];
      && r.baseAddress == 0x342E_0000 && r.limitAddress == 0x3434_FFFF
      && r.limitAddress - r.baseAddress + 1 == 0x7_0000
      && DecodeAttributes(AttributeTable()[r.attributesIndex]) == Some(DeviceNGnRnE)
      && r.disableExec && r.disablePrivExec && r.shareable == OuterShareable
  {
  }

  /** No code can be fetched from the device region, privileged or not. */
  lemma DeviceRegionNotExecutable(board: Board, a: Word, privileged: bool)
    requires Contains(RegionTable(board)[2], a)
    ensures !Executable(RegionTable(board), a, privileged)
  {
    RegionTableWellFormed(board);
    RegionOfUnique(RegionTable(board), a, 2);
  }

  /** The regions reached from region 0 by the code's field-by-field updates: region 1
      keeps Enable, DisableExec, DisablePrivExec and IsShareable of region 0 and
      changes only Number, BaseAddress, LimitAddress, AttributesIndex and
      AccessPermission. */
  lemma Region1Inherits(board: Board)
    ensures var r0, r1 := RegionTable(board)[0], RegionTable(board)[1];
      && r1 == r0.(number := 1, baseAddress := 0x9000_0000, limitAddress := Region1Limit(board),
                   attributesIndex := 1, accessPermission := PrivRw)
      && r1.enable && !r1.disableExec && !r1.disablePrivExec && r1.shareable == NotShareable
  {
  }
}
