/**
 * Types of the generic convolution accelerator driver: the enumerations
 * and parameter records of its header, the register map of its register
 * regions, and the capability record filled in at initialisation.
 */
module ConvTypes {
  import opened Bits
  import opened Ident

  /** Calculation data format. */
  datatype CalFmt = Int8 | Int16 | Fp16
  {
    function Code(): bv32
    {
      match this
      case Int8 => 0
      case Int16 => 1
      case Fp16 => 2
    }
  }

  /** The format a 3-bit format field denotes, if any. */
  function CalFmtOfCode(code: bv32): (f: Option<CalFmt>)
    ensures f.Some? ==> f.value.Code() == code
  {
    if code == 0 then Some(Int8)
    else if code == 1 then Some(Int16)
    else if code == 2 then Some(Fp16)
    else None
  }

  /** Every format code fits the 3-bit field the capability probe compares, and decodes back. */
  lemma CalFmtCodesFitProbe(f: CalFmt)
    ensures f.Code() & 7 == f.Code()
    ensures CalFmtOfCode(f.Code()) == Some(f)
  {
  }

  /** Output feature-map element type. */
  datatype OfmapDataType = O1Byte | O2Byte | O4Byte
  {
    function Code(): bv32
    {
      match this
      case O1Byte => 0
      case O2Byte => 1
      case O4Byte => 2
    }

    /** Element size in bytes, as the enumerator names say. */
    function Bytes(): nat
    {
      match this
      case O1Byte => 1
      case O2Byte => 2
      case O4Byte => 4
    }
  }

  /** Type code t stands for 2^t bytes per element. */
  lemma OfmapCodeIsLog2Bytes(t: OfmapDataType)
    ensures t.Bytes() == Pow(2, t.Code() as int)
  {
    match t
    case O1Byte =>
    case O2Byte => assert Pow(2, 1) == 2;
    case O4Byte => assert Pow(2, 2) == 2 * Pow(2, 1);
  }

  /** Kernel shape, from 1x1 to 11x11. */
  datatype KernalShape = K1x1 | K3x3 | K5x5 | K7x7 | K9x9 | K11x11
  {
    function Code(): bv32
    {
      match this
      case K1x1 => 0
      case K3x3 => 1
      case K5x5 => 2
      case K7x7 => 3
      case K9x9 => 4
      case K11x11 => 5
    }

    /** The side length the configuration routine's switch assigns. */
    function Len(): nat
    {
      match this
      case K1x1 => 1
      case K3x3 => 3
      case K5x5 => 5
      case K7x7 => 7
      case K9x9 => 9
      case K11x11 => 11
    }
  }

  /** Shape code c is a (2c+1) x (2c+1) kernel. */
  lemma KernalShapeSide(k: KernalShape)
    ensures k.Len() == 2 * k.Code() as int + 1
  {
  }

  /** Number of surfaces per feature-map buffer row, 4 to 4096. */
  datatype FmbufColn =
    Coln4 | Coln8 | Coln16 | Coln32 | Coln64 | Coln128 | Coln256 | Coln512 | Coln1024 | Coln2048 | Coln4096
  {
    function Code(): bv32
    {
      match this
      case Coln4 => 0 case Coln8 => 1 case Coln16 => 2 case Coln32 => 3
      case Coln64 => 4 case Coln128 => 5 case Coln256 => 6 case Coln512 => 7
      case Coln1024 => 8 case Coln2048 => 9 case Coln4096 => 10
    }

    /** The right shift the configuration routine's switch applies. */
    function Shift(): nat
    {
      match this
      case Coln4 => 2 case Coln8 => 3 case Coln16 => 4 case Coln32 => 5
      case Coln64 => 6 case Coln128 => 7 case Coln256 => 8 case Coln512 => 9
      case Coln1024 => 10 case Coln2048 => 11 case Coln4096 => 12
    }

    /** Surfaces per row, as the enumerator names say. */
    function Surfaces(): nat
    {
      match this
      case Coln4 => 4 case Coln8 => 8 case Coln16 => 16 case Coln32 => 32
      case Coln64 => 64 case Coln128 => 128 case Coln256 => 256 case Coln512 => 512
      case Coln1024 => 1024 case Coln2048 => 2048 case Coln4096 => 4096
    }
  }

  /** Number of surfaces per weight block, 1 to 128. */
  datatype WgtblkSfcN = Sfc1 | Sfc2 | Sfc4 | Sfc8 | Sfc16 | Sfc32 | Sfc64 | Sfc128
  {
    function Code(): bv32
    {
      match this
      case Sfc1 => 0 case Sfc2 => 1 case Sfc4 => 2 case Sfc8 => 3
      case Sfc16 => 4 case Sfc32 => 5 case Sfc64 => 6 case Sfc128 => 7
    }

    /** The right shift the configuration routine's switch applies. */
    function Shift(): nat
    {
      match this
      case Sfc1 => 0 case Sfc2 => 1 case Sfc4 => 2 case Sfc8 => 3
      case Sfc16 => 4 case Sfc32 => 5 case Sfc64 => 6 case Sfc128 => 7
    }

    /** Surfaces per weight block, as the enumerator names say. */
    function Surfaces(): nat
    {
      match this
      case Sfc1 => 1 case Sfc2 => 2 case Sfc4 => 4 case Sfc8 => 8
      case Sfc16 => 16 case Sfc32 => 32 case Sfc64 => 64 case Sfc128 => 128
    }
  }

  lemma Pow2Table()
    ensures Pow(2, 0) == 1 && Pow(2, 1) == 2 && Pow(2, 2) == 4 && Pow(2, 3) == 8
    ensures Pow(2, 4) == 16 && Pow(2, 5) == 32 && Pow(2, 6) == 64 && Pow(2, 7) == 128
    ensures Pow(2, 8) == 256 && Pow(2, 9) == 512 && Pow(2, 10) == 1024
    ensures Pow(2, 11) == 2048 && Pow(2, 12) == 4096
  {
    calc {
      Pow(2, 12);
      2 * Pow(2, 11);
      2 * (2 * Pow(2, 10));
      2 * (2 * (2 * Pow(2, 9)));
      2 * (2 * (2 * (2 * Pow(2, 8))));
      2 * (2 * (2 * (2 * (2 * Pow(2, 7)))));
      2 * (2 * (2 * (2 * (2 * (2 * Pow(2, 6))))));
      2 * (2 * (2 * (2 * (2 * (2 * (2 * Pow(2, 5)))))));
      2 * (2 * (2 * (2 * (2 * (2 * (2 * (2 * Pow(2, 4))))))));
      2 * (2 * (2 * (2 * (2 * (2 * (2 * (2 * (2 * Pow(2, 3)))))))));
      2 * (2 * (2 * (2 * (2 * (2 * (2 * (2 * (2 * (2 * Pow(2, 2))))))))));
      2 * (2 * (2 * (2 * (2 * (2 * (2 * (2 * (2 * (2 * (2 * Pow(2, 1)))))))))));
    }
  }

  /**
   * Row-length code k is 2^(k+2) surfaces, and the shift the configuration
   * routine applies divides by exactly that row length.
   */
  lemma FmbufColnIsPowerOfTwo(c: FmbufColn)
    ensures c.Shift() == c.Code() as int + 2
    ensures Pow(2, c.Shift()) == c.Surfaces()
  {
    Pow2Table();
  }

  /** Weight-block code k is 2^k surfaces, and the configuration routine shifts by k. */
  lemma WgtblkSfcNIsPowerOfTwo(s: WgtblkSfcN)
    ensures s.Shift() == s.Code() as int
    ensures Pow(2, s.Shift()) == s.Surfaces()
  {
    Pow2Table();
  }

  /**
   * Activation function. The enumeration is not part of the header, only
   * its three named members are used; the codes below are distinct and
   * fit the 3-bit field of act_cfg0.
   */
  datatype ActFuncType = ActNone | ActLeakyRelu | ActSigmoid | ActTanh
  {
    function Code(): bv32
    {
      match this
      case ActNone => 0
      case ActLeakyRelu => 1
      case ActSigmoid => 2
      case ActTanh => 3
    }
  }

  /**
   * Capabilities and limits that both driver revisions record at
   * initialisation: the format and geometry probes and the limits decoded
   * from the information registers.
   */
  datatype ConvCaps = ConvCaps(
    int8Supported: bool,
    int16Supported: bool,
    fp16Supported: bool,
    largeVStrideSupported: bool,
    largeHStrideSupported: bool,
    groupConvSupported: bool,
    extPaddingSupported: bool,
    innerPaddingSupported: bool,
    kernalDilationSupported: bool,
    performanceMonitorSupported: bool,
    atomicK: nat,
    atomicC: nat,
    maxCalRoundN: nat,
    mm2sStreamDataWidth: nat,
    s2mmStreamDataWidth: nat,
    phyBufBankN: nat,
    phyBufBankDepth: nat,
    maxFmbufRowN: nat,
    midResBufBankN: nat,
    midResBufBankDepth: nat)
  {
    /** Each limit fits the uint8_t or uint16_t property that holds it. */
    predicate InRange()
    {
      && atomicK < 0x100 && atomicC < 0x100 && maxCalRoundN < 0x100
      && mm2sStreamDataWidth < 0x1_0000 && s2mmStreamDataWidth < 0x1_0000
      && phyBufBankN < 0x1_0000 && phyBufBankDepth < 0x1_0000 && maxFmbufRowN < 0x1_0000
      && midResBufBankN < 0x100 && midResBufBankDepth < 0x1_0000
    }
  }

  /**
   * The property record of the current revision: the identity, the shared
   * capabilities, and the batch-normalisation and activation capabilities
   * and limits that only this revision has.
   */
  datatype ConvProp = ConvProp(
    ident: DeviceIdent,
    caps: ConvCaps,
    bnSupported: bool,
    leakyReluSupported: bool,
    sigmoidSupported: bool,
    tanhSupported: bool,
    bnActPrlN: nat,
    maxKernalN: nat,
    midResBufClkRate: nat)
  {
    /** Each limit fits the property that holds it; the clock ratio is a 4-bit field. */
    predicate InRange()
    {
      caps.InRange() && bnActPrlN < 0x100 && maxKernalN < 0x1_0000 && midResBufClkRate < 0x10
    }
  }

  /** Calculation parameters. */
  datatype CalParams = CalParams(calFmt: CalFmt, convVerticalStride: U8, convHorizontalStride: U8, calRoundN: U8)

  /** Feature-map parameters. */
  datatype FmapParams = FmapParams(
    ifmapWidth: U16,
    ifmapHeight: U16,
    ifmapChnN: U16,
    externalPaddingLeft: U8,
    externalPaddingRight: U8,
    externalPaddingTop: U8,
    externalPaddingBottom: U8,
    innerPaddingLeftRight: U8,
    innerPaddingTopBottom: U8,
    ofmapDataType: OfmapDataType)

  /** Kernel parameters. */
  datatype KernalParams = KernalParams(kernalShape: KernalShape, dilationN: U8, kernalChnN: U16, kernalN: U16)

  /** Buffer parameters. */
  datatype BufferParams = BufferParams(fmbufbankn: U16, fmbufcoln: FmbufColn, sfcNEachWgtblk: WgtblkSfcN)

  /**
   * Batch-normalisation and activation parameters; the leaky-ReLU alpha is
   * kept as the 32-bit pattern of the float.
   */
  datatype BnActParams = BnActParams(
    useBnUnit: U8,
    useActUnit: U8,
    actFuncType: ActFuncType,
    bnFixedPointQuatAccrc: U8,
    bnIsAEq1: U8,
    bnIsBEq0: U8,
    leakyReluPointQuatAccrc: U8,
    sigmoidPointQuatAccrc: U8,
    leakyReluParamAlpha: bv32)

  /**
   * The part of a configuration request that both revisions read; base
   * addresses are the 32-bit bus addresses.
   */
  datatype LayerCfg = LayerCfg(
    cal: CalParams,
    fmap: FmapParams,
    kernal: KernalParams,
    buffer: BufferParams,
    ifmapBaseaddr: bv32,
    ofmapBaseaddr: bv32,
    kernalWgtBaseaddr: bv32,
    groupN: U16,
    maxWgtblkW: U8)

  /** A configuration request of the current revision. */
  datatype ConvCfg = ConvCfg(layer: LayerCfg, bnAct: BnActParams)

  /** The registers of all register regions. */
  datatype ConvReg =
    | Version | AccName | Info0 | Info1 | Info2 | Info3 | Info4 | Info5
    | Ctrl0
    | Sts0 | Sts1 | Sts2 | Sts3 | Sts4 | Sts5 | Sts6 | Sts7 | Sts8
    | CalCfg
    | GrpConv0 | GrpConv1
    | FmapCfg0 | FmapCfg1 | FmapCfg2 | FmapCfg3 | FmapCfg4 | FmapCfg5
    | KrnCfg0 | KrnCfg1 | KrnCfg2 | KrnCfg3
    | BufCfg0 | BufCfg1 | BufCfg2 | BufCfg3
    | BnCfg | ActCfg0 | ActCfg1

  /** Performance-monitor counters as read by get_pm_cnt. */
  datatype ConvPerfMonSts = ConvPerfMonSts(cycleN: bv32, mm2sChn0TsfN: bv32, mm2sChn1TsfN: bv32, s2mmTsfN: bv32, ftmSfcCalN: bv32)
}
