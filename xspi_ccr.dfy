/** The XSPI communication configuration register (CCR) fields that the PSRAM Global
    Reset command sets, with their bit positions in the 32-bit register:
    IMODE [2:0], IDTR [3], ISIZE [5:4], ADMODE [10:8], ABMODE [18:16], DMODE [26:24].
    The other CCR fields (address and alternate-byte sizes, the DTR bits of the
    later phases, DQSE) stay zero in every word this model builds. */
module XspiCcr {

  /** Line-count codes of a phase: 000 = phase absent, 100 = eight lines. */
  const LinesNone: bv3 := 0
  const Lines1: bv3 := 1
  const Lines2: bv3 := 2
  const Lines4: bv3 := 3
  const Lines8: bv3 := 4

  /** ISIZE code 00: 8-bit instruction. */
  const InstructionSize8Bits: bv2 := 0

  const ImodePos: bv32 := 0
  const IdtrPos: bv32 := 3
  const IsizePos: bv32 := 4
  const AdmodePos: bv32 := 8
  const AbmodePos: bv32 := 16
  const DmodePos: bv32 := 24

  /** The register bits the six fields occupy. */
  const FieldBits: bv32 := 0x0707_073F

  datatype CcrFields = CcrFields(imode: bv3, idtr: bv1, isize: bv2, admode: bv3, abmode: bv3, dmode: bv3)

  /** The register word holding the fields, every other bit zero. Decoding it gives
      the fields back. */
  function EncodeCcr(f: CcrFields): (w: bv32)
    ensures w & !FieldBits == 0
    ensures DecodeCcr(w) == f
  {
    ((f.imode as bv32) << ImodePos)
    | ((f.idtr as bv32) << IdtrPos)
    | ((f.isize as bv32) << IsizePos)
    | ((f.admode as bv32) << AdmodePos)
    | ((f.abmode as bv32) << AbmodePos)
    | ((f.dmode as bv32) << DmodePos)
  }

  function DecodeCcr(w: bv32): CcrFields
  {
    CcrFields(
      ((w >> ImodePos) & 7) as bv3,
      ((w >> IdtrPos) & 1) as bv1,
      ((w >> IsizePos) & 3) as bv2,
      ((w >> AdmodePos) & 7) as bv3,
      ((w >> AbmodePos) & 7) as bv3,
      ((w >> DmodePos) & 7) as bv3)
  }

  /** A word with nothing outside the six fields is re-encoded from its fields
      exactly; one with other bits set is not. */
  lemma EncodeDecode(w: bv32)
    ensures EncodeCcr(DecodeCcr(w)) == w <==> w & !FieldBits == 0
  {
  }

  /** PSRAM_GRESET_CCR, defined as 4 << XSPI_CCR_IMODE_Pos. */
  const PsramGresetCcr: bv32 := (4 as bv32) << ImodePos

  /** The Global Reset CCR word: instruction on eight lines, single data rate, 8-bit,
      and no address, alternate-byte or data phase. */
  const GresetFields: CcrFields := CcrFields(Lines8, 0, InstructionSize8Bits, LinesNone, LinesNone, LinesNone)

  lemma GresetCcrEncoding()
    ensures DecodeCcr(PsramGresetCcr) == GresetFields
    ensures EncodeCcr(GresetFields) == PsramGresetCcr
  {
  }
}
