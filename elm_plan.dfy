/**
 * The checks and register words of the element-wise driver's start and
 * cfg routines as pure functions: the status start returns from the
 * control bits and the buffer lengths, the ctrl1 word it writes, and the
 * result of cfg as an outcome carrying the seven functional-unit words.
 */
module ElmPlan {
  import opened Bits
  import opened ElmTypes

  /** The bits a buffer length may not use: lengths are 24-bit fields. */
  const LEN_HIGH_BYTE: bv32 := 0xFF00_0000

  /** A buffer length that start accepts. */
  predicate LenFits(len: bv32)
  {
    len & LEN_HIGH_BYTE == 0
  }

  /** A length is accepted exactly when it is below 2^24. */
  lemma LenFitsMeaning(len: bv32)
    ensures LenFits(len) <==> len < 0x100_0000
  {
  }

  /**
   * The result of start: -1 while any of the three DMA channels of ctrl1
   * is still running, -2 unless the accelerator, the data hub and the
   * processing core are all enabled in ctrl0, -3 when a buffer length in
   * use does not fit 24 bits (the operand A/B buffer only counts when it
   * is used), 0 otherwise.
   */
  function ElmStartStatus(ctrl0: bv32, ctrl1: bv32, b: ElmBufCfg, useOpAOrB: U8): (s: int)
    ensures s == 0 || s == -1 || s == -2 || s == -3
    ensures s == -1 <==> ctrl1 & 7 != 0
    ensures s == -2 <==> ctrl1 & 7 == 0 && ctrl0 & 7 != 7
    ensures s == 0 <==>
      && ctrl1 & 7 == 0 && ctrl0 & 7 == 7
      && LenFits(b.opXBufLen) && (useOpAOrB != 0 ==> LenFits(b.opABBufLen)) && LenFits(b.resBufLen)
  {
    if ctrl1 & 7 != 0 then -1
    else if ctrl0 & 7 != 7 then -2
    else if !LenFits(b.opXBufLen) || (useOpAOrB != 0 && !LenFits(b.opABBufLen)) || !LenFits(b.resBufLen) then -3
    else 0
  }

  /** The ctrl1 word start writes: bit 0 and bit 2 always, bit 1 when operand A or B comes from memory. */
  function Ctrl1Word(useOpAOrB: U8): bv32
  {
    1 | (if useOpAOrB != 0 then 2 else 0) | 4
  }

  /** The ctrl1 word starts the operand X and result channels, and the operand A/B channel exactly when it is used. */
  lemma Ctrl1WordMeaning(useOpAOrB: U8)
    ensures Ctrl1Word(useOpAOrB) & 1 == 1 && Ctrl1Word(useOpAOrB) & 4 == 4
    ensures Ctrl1Word(useOpAOrB) & 2 != 0 <==> useOpAOrB != 0
    ensures Ctrl1Word(useOpAOrB) & !7 == 0
  {
  }

  /** Every unit the configuration uses exists on the device. */
  predicate UnitsPresent(exist: ElmUnits, used: ElmUnits)
  {
    && (used.inDataCvt ==> exist.inDataCvt)
    && (used.pow2 ==> exist.pow2)
    && (used.mac ==> exist.mac)
    && (used.outDataCvt ==> exist.outDataCvt)
    && (used.round ==> exist.round)
  }

  /** Operand A is a variable taken from memory: neither fixed to one nor a constant. */
  predicate UsesOpA(c: ElmFuCfg)
  {
    !(c.isOpAEq1 != 0 || c.isOpAConst != 0)
  }

  /** Input conversion to a fixed-point format needs a precision below 64. */
  predicate InCvtPrecisionOk(c: ElmFuCfg)
  {
    !(c.useInDataCvtUnit != 0 && !c.inDataFmt.IsFloat() && c.inFixedPointQuatAccrc >= 64)
  }

  /**
   * The power-of-two and multiply-add cells in a fixed-point calculation
   * format need operand X's precision, and operand A's when it is a
   * variable, below 32.
   */
  predicate CalPrecisionOk(c: ElmFuCfg)
  {
    !((c.usePow2Cell != 0 || c.useMacCell != 0) && c.calFmt != CalFp32
      && (c.opXFixedPointQuatAccrc >= 32 || (UsesOpA(c) && c.opAFixedPointQuatAccrc >= 32)))
  }

  /** Output conversion to a fixed-point format needs a precision below 64. */
  predicate OutCvtPrecisionOk(c: ElmFuCfg)
  {
    !(c.useOutDataCvtUnit != 0 && !c.outDataFmt.IsFloat() && c.s33CvtFixedPointQuatAccrc >= 64)
  }

  /** Rounding to a fixed-point format needs both precisions below 32 and may not gain fraction bits. */
  predicate RoundPrecisionOk(c: ElmFuCfg)
  {
    !(c.useRoundCell != 0 && !c.outDataFmt.IsFloat()
      && (c.roundInFixedPointQuatAccrc >= 32 || c.roundOutFixedPointQuatAccrc >= 32
          || c.roundOutFixedPointQuatAccrc > c.roundInFixedPointQuatAccrc))
  }

  predicate PrecisionOk(c: ElmFuCfg)
  {
    InCvtPrecisionOk(c) && CalPrecisionOk(c) && OutCvtPrecisionOk(c) && RoundPrecisionOk(c)
  }

  /**
   * The words cfg writes: fmt_cfg, fixed_point_cfg0 and 1, op_a_b_cfg0,
   * op_a_b_cfg1 and op_a_b_cfg2 only for a constant operand, and
   * fu_bypass_cfg.
   */
  datatype ElmImage = ElmImage(
    fmtCfg: bv32,
    fixedPointCfg0: bv32,
    fixedPointCfg1: bv32,
    opABCfg0: bv32,
    opA: Option<bv32>,
    opB: Option<bv32>,
    fuBypassCfg: bv32)

  /** The three format codes in bytes 0, 1 and 2. */
  function FmtCfgWord(c: ElmFuCfg): bv32
  {
    c.inDataFmt.Code() | (c.calFmt.Code() << 8) | (c.outDataFmt.Code() << 16)
  }

  /** The input, operand X, operand A and S33-conversion precisions in bytes 0 to 3. */
  function FixedPointCfg0Word(c: ElmFuCfg): bv32
  {
    (c.inFixedPointQuatAccrc as bv32) | ((c.opXFixedPointQuatAccrc as bv32) << 8)
      | ((c.opAFixedPointQuatAccrc as bv32) << 16) | ((c.s33CvtFixedPointQuatAccrc as bv32) << 24)
  }

  /**
   * The rounding input and output precisions in bytes 0 and 1, and from
   * bit 16 their difference. The routine subtracts in int and converts to
   * uint32_t, which is subtraction modulo 2^32 of the widened values, so a
   * negative difference fills the upper half with its two's complement.
   */
  function FixedPointCfg1Word(c: ElmFuCfg): bv32
  {
    RoundingWord(c.roundInFixedPointQuatAccrc, c.roundOutFixedPointQuatAccrc)
  }

  function RoundingWord(i: bv8, o: bv8): bv32
  {
    (i as bv32) | ((o as bv32) << 8) | (((i as bv32) - (o as bv32)) << 16)
  }

  /** The four operand flags, each widened from its uint8_t and shifted to bits 0, 1, 8 and 9 without masking. */
  function OpABCfg0Word(c: ElmFuCfg): bv32
  {
    Zext8(c.isOpAEq1) | (Zext8(c.isOpBEq0) << 1) | (Zext8(c.isOpAConst) << 8) | (Zext8(c.isOpBConst) << 9)
  }

  /** Bit k set when the k-th unit (input conversion, power of two, multiply-add, output conversion, rounding) is bypassed. */
  function FuBypassWord(used: ElmUnits): bv32
  {
    (if used.inDataCvt then 0 else 1) | (if used.pow2 then 0 else 2) | (if used.mac then 0 else 4)
      | (if used.outDataCvt then 0 else 8) | (if used.round then 0 else 0x10)
  }

  function ElmImageOf(c: ElmFuCfg): ElmImage
  {
    ElmImage(
      fmtCfg := FmtCfgWord(c),
      fixedPointCfg0 := FixedPointCfg0Word(c),
      fixedPointCfg1 := FixedPointCfg1Word(c),
      opABCfg0 := OpABCfg0Word(c),
      opA := if c.isOpAConst != 0 then Some(c.opAConstVal) else None,
      opB := if c.isOpBConst != 0 then Some(c.opBConstVal) else None,
      fuBypassCfg := FuBypassWord(c.Used()))
  }

  /** cfg: -1 when a used unit is missing, -2 when a precision is out of range, otherwise the words to write. */
  function ElmCompile(exist: ElmUnits, c: ElmFuCfg): (r: Outcome<ElmImage>)
    ensures r != Undefined
  {
    if !UnitsPresent(exist, c.Used()) then Fail(-1)
    else if !PrecisionOk(c) then Fail(-2)
    else Ok(ElmImageOf(c))
  }

  /**
   * cfg rejects with -1 exactly when a requested unit does not exist, with
   * -2 exactly when every unit exists but a precision is out of range, and
   * otherwise accepts; an accepted configuration writes its own image.
   */
  lemma ElmCompileAccepts(exist: ElmUnits, c: ElmFuCfg)
    ensures ElmCompile(exist, c) == Fail(-1) <==>
      || (c.useInDataCvtUnit != 0 && !exist.inDataCvt)
      || (c.usePow2Cell != 0 && !exist.pow2)
      || (c.useMacCell != 0 && !exist.mac)
      || (c.useOutDataCvtUnit != 0 && !exist.outDataCvt)
      || (c.useRoundCell != 0 && !exist.round)
    ensures ElmCompile(exist, c) == Fail(-2) <==> UnitsPresent(exist, c.Used()) && !PrecisionOk(c)
    ensures ElmCompile(exist, c).Ok? <==> UnitsPresent(exist, c.Used()) && PrecisionOk(c)
    ensures ElmCompile(exist, c).Ok? ==> ElmCompile(exist, c).value == ElmImageOf(c)
  {
  }

  /**
   * The precisions an accepted configuration can carry: every fixed-point
   * stage it uses has its precision in range, and integer rounding never
   * gains fraction bits.
   */
  lemma AcceptedPrecisions(exist: ElmUnits, c: ElmFuCfg)
    requires ElmCompile(exist, c).Ok?
    ensures c.useInDataCvtUnit != 0 && !c.inDataFmt.IsFloat() ==> c.inFixedPointQuatAccrc < 64
    ensures (c.usePow2Cell != 0 || c.useMacCell != 0) && c.calFmt != CalFp32 ==>
      c.opXFixedPointQuatAccrc < 32 && (UsesOpA(c) ==> c.opAFixedPointQuatAccrc < 32)
    ensures c.useOutDataCvtUnit != 0 && !c.outDataFmt.IsFloat() ==> c.s33CvtFixedPointQuatAccrc < 64
    ensures c.useRoundCell != 0 && !c.outDataFmt.IsFloat() ==>
      c.roundOutFixedPointQuatAccrc <= c.roundInFixedPointQuatAccrc < 32
  {
  }

  /**
   * cfg consults only the unit-existence flags of the properties: the
   * stream-width, conversion, calculation-format and rounding capability
   * flags init records are never checked, so a calculation format the
   * device reports as unsupported is accepted.
   */
  lemma ElmCompileIgnoresCaps(p: ElmProp, k: ElmCaps, c: ElmFuCfg)
    ensures ElmCompile(p.(caps := k).units, c) == ElmCompile(p.units, c)
  {
  }

  /**
   * Operand A's precision matters only when operand A is a variable: with
   * A fixed to one or constant, any value of it is accepted alike.
   */
  lemma {:induction false} OpAPrecisionOnlyForVariable(exist: ElmUnits, c: ElmFuCfg, q: bv8)
    requires !UsesOpA(c)
    ensures ElmCompile(exist, c.(opAFixedPointQuatAccrc := q)).Ok? <==> ElmCompile(exist, c).Ok?
  {
    var d := c.(opAFixedPointQuatAccrc := q);
    assert d.Used() == c.Used();
    assert CalPrecisionOk(d) == CalPrecisionOk(c);
  }

  /** The input format a code of fmt_cfg's low byte stands for. */
  function InFmtOfCode(k: bv32): Option<ElmInFmt>
  {
    if k == 0 then Some(InU8) else if k == 1 then Some(InS8) else if k == 2 then Some(InU16)
    else if k == 3 then Some(InS16) else if k == 4 then Some(InU32) else if k == 5 then Some(InS32)
    else if k == 6 then Some(InFp16) else if k == 7 then Some(InFp32) else None
  }

  /** The calculation format a code of fmt_cfg's second byte stands for. */
  function CalFmtOfCode(k: bv32): Option<ElmCalFmt>
  {
    if k == 0 then Some(CalS16) else if k == 1 then Some(CalS32) else if k == 2 then Some(CalFp32) else None
  }

  /** The output format a code of fmt_cfg's third byte stands for. */
  function OutFmtOfCode(k: bv32): Option<ElmOutFmt>
  {
    if k == 0 then Some(OutU8) else if k == 1 then Some(OutS8) else if k == 2 then Some(OutU16)
    else if k == 3 then Some(OutS16) else if k == 4 then Some(OutU32) else if k == 5 then Some(OutS32)
    else if k == 6 then Some(OutFp16) else if k == 7 then Some(OutFp32) else None
  }

  /** Three bytes packed into bytes 0, 1 and 2 read back as written. */
  lemma ThreeBytesDecode(a: bv32, b: bv32, d: bv32)
    requires a <= 0xFF && b <= 0xFF && d <= 0xFF
    ensures (a | (b << 8) | (d << 16)) & 0xFF == a
    ensures ((a | (b << 8) | (d << 16)) >> 8) & 0xFF == b
    ensures (a | (b << 8) | (d << 16)) >> 16 == d
  {
  }

  /** fmt_cfg decodes, byte by byte, to the three formats it was built from. */
  lemma FmtCfgRoundTrip(c: ElmFuCfg)
    ensures InFmtOfCode(FmtCfgWord(c) & 0xFF) == Some(c.inDataFmt)
    ensures CalFmtOfCode((FmtCfgWord(c) >> 8) & 0xFF) == Some(c.calFmt)
    ensures OutFmtOfCode(FmtCfgWord(c) >> 16) == Some(c.outDataFmt)
  {
    ThreeBytesDecode(c.inDataFmt.Code(), c.calFmt.Code(), c.outDataFmt.Code());
  }

  /** fixed_point_cfg0 decodes, byte by byte, to the four precisions it was built from. */
  lemma FixedPointCfg0Decodes(c: ElmFuCfg)
    ensures FixedPointCfg0Word(c) & 0xFF == c.inFixedPointQuatAccrc as bv32
    ensures (FixedPointCfg0Word(c) >> 8) & 0xFF == c.opXFixedPointQuatAccrc as bv32
    ensures (FixedPointCfg0Word(c) >> 16) & 0xFF == c.opAFixedPointQuatAccrc as bv32
    ensures FixedPointCfg0Word(c) >> 24 == c.s33CvtFixedPointQuatAccrc as bv32
  {
  }

  /** Two bytes in bytes 0 and 1 and their difference modulo 2^32 from bit 16. */
  lemma RoundingWordFields(i: bv8, o: bv8)
    ensures var w := RoundingWord(i, o);
      && w & 0xFF == i as bv32
      && (w >> 8) & 0xFF == o as bv32
      && w >> 16 == ((i as bv32) - (o as bv32)) & 0xFFFF
      && w >> 24 == (w >> 16) >> 8
  {
  }

  /** The difference of two widened bytes, cut to 16 bits, is exact when it is not negative. */
  lemma ByteDifferenceExact(i: bv8, o: bv8)
    requires o <= i
    ensures ((i as bv32) - (o as bv32)) & 0xFFFF == (i - o) as bv32
  {
  }

  /** A negative difference of two widened bytes, cut to 16 bits, is its two's complement, with top byte 0xFF. */
  lemma ByteDifferenceWraps(i: bv8, o: bv8)
    requires o > i
    ensures ((i as bv32) - (o as bv32)) & 0xFFFF == 0x1_0000 - (o - i) as bv32
    ensures (((i as bv32) - (o as bv32)) & 0xFFFF) >> 8 == 0xFF
  {
  }

  /**
   * fixed_point_cfg1 decodes to the two rounding precisions and, from bit
   * 16, their difference; when the output precision exceeds the input one
   * (which cfg rejects only with rounding on an integer output) the field
   * holds the 16-bit two's complement and its top byte is 0xFF.
   */
  lemma FixedPointCfg1Decodes(i: bv8, o: bv8)
    ensures var w := RoundingWord(i, o);
      && w & 0xFF == i as bv32
      && (w >> 8) & 0xFF == o as bv32
      && (o <= i ==> w >> 16 == (i - o) as bv32)
      && (o > i ==> w >> 16 == 0x1_0000 - (o - i) as bv32 && w >> 24 == 0xFF)
  {
    RoundingWordFields(i, o);
    if o <= i {
      ByteDifferenceExact(i, o);
    } else {
      ByteDifferenceWraps(i, o);
    }
  }

  /** An accepted configuration that rounds to an integer format writes the exact difference of its precisions. */
  lemma AcceptedRoundingDifference(exist: ElmUnits, c: ElmFuCfg)
    requires ElmCompile(exist, c).Ok?
    requires c.useRoundCell != 0 && !c.outDataFmt.IsFloat()
    ensures FixedPointCfg1Word(c) >> 16 == (c.roundInFixedPointQuatAccrc - c.roundOutFixedPointQuatAccrc) as bv32
  {
    AcceptedPrecisions(exist, c);
    FixedPointCfg1Decodes(c.roundInFixedPointQuatAccrc, c.roundOutFixedPointQuatAccrc);
  }

  /**
   * Without the rounding cell a larger output precision is accepted, and
   * the difference field wraps: input 0 and output 1 give 0xFFFF there.
   */
  lemma UnusedRoundingWrapsDifference(exist: ElmUnits, c: ElmFuCfg)
    requires ElmCompile(exist, c).Ok?
    requires c.useRoundCell == 0 && c.roundInFixedPointQuatAccrc == 0 && c.roundOutFixedPointQuatAccrc == 1
    ensures ElmCompile(exist, c).value.fixedPointCfg1 == 0xFFFF_0100
  {
  }

  /** With each flag 0 or 1, op_a_b_cfg0 carries them in bits 0, 1, 8 and 9 and nowhere else. */
  lemma OpABCfg0Decodes(c: ElmFuCfg)
    requires c.isOpAEq1 <= 1 && c.isOpBEq0 <= 1 && c.isOpAConst <= 1 && c.isOpBConst <= 1
    ensures var w := OpABCfg0Word(c);
      && (w & 1 != 0 <==> c.isOpAEq1 != 0)
      && (w & 2 != 0 <==> c.isOpBEq0 != 0)
      && (w & 0x100 != 0 <==> c.isOpAConst != 0)
      && (w & 0x200 != 0 <==> c.isOpBConst != 0)
      && w & !0x303 == 0
  {
    assert Zext8(c.isOpAEq1) <= 1 && Zext8(c.isOpBEq0) <= 1;
    assert Zext8(c.isOpAConst) <= 1 && Zext8(c.isOpBConst) <= 1;
  }

  /**
   * The flags are not masked to one bit: a flag of 2 meaning "operand A is
   * one" (true in C, and taken so by cfg's own checks) lands on bit 1, so
   * the word says operand B is zero and operand A is not one.
   */
  lemma WideOpAFlagLandsOnOpB(c: ElmFuCfg)
    requires c.isOpAEq1 == 2 && c.isOpBEq0 == 0 && c.isOpAConst == 0 && c.isOpBConst == 0
    ensures !UsesOpA(c)
    ensures OpABCfg0Word(c) == 2
  {
  }

  /** fu_bypass_cfg sets bit k exactly when the k-th unit is not used, and no bit above 4. */
  lemma FuBypassDecodes(used: ElmUnits)
    ensures var w := FuBypassWord(used);
      && (w & 1 != 0 <==> !used.inDataCvt)
      && (w & 2 != 0 <==> !used.pow2)
      && (w & 4 != 0 <==> !used.mac)
      && (w & 8 != 0 <==> !used.outDataCvt)
      && (w & 0x10 != 0 <==> !used.round)
      && w < 0x20
  {
  }
}
