/**
 * Types of the element-wise processing accelerator driver: the format
 * enumerations of its header with their codes, the functional units, the
 * buffer and functional-unit parameter records, the register map, and the
 * property record filled in at initialisation.
 */
module ElmTypes {
  import opened Bits
  import opened Ident

  /** Input data formats: codes 0 to 7; FP32 (code 7) means no conversion. */
  datatype ElmInFmt = InU8 | InS8 | InU16 | InS16 | InU32 | InS32 | InFp16 | InFp32
  {
    function Code(): (c: bv32)
      ensures c < 8
      ensures c == 7 <==> this == InFp32
      ensures c == 6 <==> this == InFp16
    {
      match this
      case InU8 => 0
      case InS8 => 1
      case InU16 => 2
      case InS16 => 3
      case InU32 => 4
      case InS32 => 5
      case InFp16 => 6
      case InFp32 => 7
    }

    /** A floating-point input, which the input conversion unit takes without a fixed-point precision. */
    predicate IsFloat()
    {
      this == InFp16 || this == InFp32
    }
  }

  /** Calculation formats: S16, S32, FP32 with codes 0, 1, 2. */
  datatype ElmCalFmt = CalS16 | CalS32 | CalFp32
  {
    function Code(): (c: bv32)
      ensures c < 3
      ensures c == 2 <==> this == CalFp32
    {
      match this
      case CalS16 => 0
      case CalS32 => 1
      case CalFp32 => 2
    }
  }

  /** Output data formats: codes 0 to 7; FP16 is 6 and FP32 (no conversion) is 7. */
  datatype ElmOutFmt = OutU8 | OutS8 | OutU16 | OutS16 | OutU32 | OutS32 | OutFp16 | OutFp32
  {
    function Code(): (c: bv32)
      ensures c < 8
      ensures c == 7 <==> this == OutFp32
      ensures c == 6 <==> this == OutFp16
    {
      match this
      case OutU8 => 0
      case OutS8 => 1
      case OutU16 => 2
      case OutS16 => 3
      case OutU32 => 4
      case OutS32 => 5
      case OutFp16 => 6
      case OutFp32 => 7
    }

    /** A floating-point output, for which the conversion and rounding units need no fixed-point precision. */
    predicate IsFloat()
    {
      this == OutFp16 || this == OutFp32
    }
  }

  /** The DMA command counters get_cmd_fns_n can query. */
  datatype ElmCmdFnsQuery = QueryMm2s0 | QueryMm2s1 | QueryS2mm

  /** The DMA command counters clr_cmd_fns_n can clear. */
  datatype ElmCmdFnsClear = ClearMm2s0 | ClearMm2s1 | ClearS2mm | ClearAll

  /**
   * The five optional functional units, in the order of their bits in
   * fu_bypass_cfg: input conversion, power of two, multiply-add, output
   * conversion, rounding.
   */
  datatype ElmUnits = ElmUnits(inDataCvt: bool, pow2: bool, mac: bool, outDataCvt: bool, round: bool)

  /**
   * The stream and format capabilities init reads from bits 8 to 21 of
   * info1, in bit order.
   */
  datatype ElmCaps = ElmCaps(
    inStreamWidth1B: bool,
    inStreamWidth2B: bool,
    inStreamWidth4B: bool,
    outStreamWidth1B: bool,
    outStreamWidth2B: bool,
    outStreamWidth4B: bool,
    inDataCvtFp16ToFp32: bool,
    inDataCvtIntToFp32: bool,
    calFmtS16: bool,
    calFmtS32: bool,
    calFmtFp32: bool,
    outDataCvtFp32ToS33: bool,
    roundS33: bool,
    roundFp32: bool)

  /** The properties init records. */
  datatype ElmProp = ElmProp(
    ident: DeviceIdent,
    mm2sStreamDataWidth: U16,
    s2mmStreamDataWidth: U16,
    pipelineN: U8,
    units: ElmUnits,
    performanceMonitorSupported: bool,
    caps: ElmCaps)

  /** Buffer base addresses (the pointers' 32-bit values) and lengths for operand X, operand A or B, and the result. */
  datatype ElmBufCfg = ElmBufCfg(
    opXBufBaseaddr: bv32,
    opABBufBaseaddr: bv32,
    resBufBaseaddr: bv32,
    opXBufLen: bv32,
    opABBufLen: bv32,
    resBufLen: bv32)

  /**
   * Functional-unit parameters. The constant operands are the values the
   * caller's pointers refer to; the routine reads each only when its
   * operand is marked constant. The six fixed-point precisions are
   * uint8_t values the routine compares, packs and subtracts, kept as
   * 8-bit vectors.
   */
  datatype ElmFuCfg = ElmFuCfg(
    inDataFmt: ElmInFmt,
    calFmt: ElmCalFmt,
    outDataFmt: ElmOutFmt,
    useInDataCvtUnit: U8,
    usePow2Cell: U8,
    useMacCell: U8,
    useOutDataCvtUnit: U8,
    useRoundCell: U8,
    inFixedPointQuatAccrc: bv8,
    opXFixedPointQuatAccrc: bv8,
    opAFixedPointQuatAccrc: bv8,
    s33CvtFixedPointQuatAccrc: bv8,
    roundInFixedPointQuatAccrc: bv8,
    roundOutFixedPointQuatAccrc: bv8,
    isOpAEq1: U8,
    isOpBEq0: U8,
    isOpAConst: U8,
    isOpBConst: U8,
    opAConstVal: bv32,
    opBConstVal: bv32)
  {
    /** The units the configuration asks for: every nonzero use flag. */
    function Used(): ElmUnits
    {
      ElmUnits(useInDataCvtUnit != 0, usePow2Cell != 0, useMacCell != 0, useOutDataCvtUnit != 0, useRoundCell != 0)
    }
  }

  /** The registers of the element-wise accelerator's register regions. */
  datatype ElmReg =
    | Version | AccName | Info0 | Info1
    | Ctrl0 | Ctrl1
    | Sts0 | Sts1 | Sts2 | Sts3
    | BufCfg0 | BufCfg1 | BufCfg2 | BufCfg3 | BufCfg4 | BufCfg5
    | FmtCfg | FixedPointCfg0 | FixedPointCfg1 | OpABCfg0 | OpABCfg1 | OpABCfg2 | FuBypassCfg
}
