/**
 * Types of the generic pooling accelerator driver: the enumerations and
 * parameter records of its header, its register map, and the property
 * record filled in at initialisation. The format, output-element and
 * buffer-row enumerations carry the same codes as the convolution
 * driver's and are shared with it.
 */
module PoolTypes {
  import opened Bits
  import opened Ident
  import ConvTypes

  /** POOL_INT8, POOL_INT16, POOL_FP16: codes 0, 1, 2. */
  type PoolCalFmt = ConvTypes.CalFmt

  /** POOL_O_1_BYTE, POOL_O_2_BYTE, POOL_O_4_BYTE: codes 0, 1, 2. */
  type PoolOfmapDataType = ConvTypes.OfmapDataType

  /** POOL_COLN_4 to POOL_COLN_4096: codes 0 to 10. */
  type PoolFmbufColn = ConvTypes.FmbufColn

  /** Processing mode: average pooling, maximum pooling, up-sampling. */
  datatype ProcMode = ModeAvg | ModeMax | ModeUpsample
  {
    function Code(): bv32
    {
      match this
      case ModeAvg => 0
      case ModeMax => 1
      case ModeUpsample => 2
    }
  }

  /** The DMA command counters get_cmd_fns_n can query. */
  datatype PoolCmdFnsQuery = QueryMm2s | QueryS2mm

  /** The DMA command counters clr_cmd_fns_n can clear. */
  datatype PoolCmdFnsClear = ClearMm2s | ClearS2mm | ClearAll

  /**
   * The properties init records: the identity, ten support flags, and the
   * limits of info0 to info3 taken as raw fields (no plus-one encoding).
   */
  datatype PoolProp = PoolProp(
    ident: DeviceIdent,
    maxPoolSupported: bool,
    avgPoolSupported: bool,
    upSampleSupported: bool,
    int8Supported: bool,
    int16Supported: bool,
    fp16Supported: bool,
    postMacSupported: bool,
    extPaddingSupported: bool,
    nonZeroConstPaddingSupported: bool,
    performanceMonitorSupported: bool,
    atomicC: U8,
    postMacPrlN: U8,
    mm2sStreamDataWidth: U16,
    s2mmStreamDataWidth: U16,
    phyBufBankN: U16,
    phyBufBankDepth: U16,
    maxFmbufRowN: U16,
    midResBufBankN: U16,
    midResBufBankDepth: U16)

  /** Feature-map parameters. The base addresses are the pointers' 32-bit values. */
  datatype PoolFmapCfg = PoolFmapCfg(
    ifmapBaseaddr: bv32,
    ofmapBaseaddr: bv32,
    ifmapW: U16,
    ifmapH: U16,
    ifmapC: U16,
    padLeft: U8,
    padRight: U8,
    padTop: U8,
    padBottom: U8,
    ofmapDataType: PoolOfmapDataType)

  /** The post multiply-add stage parameters both modes carry; the stage is used when usePostMac is nonzero. */
  datatype PostMacCfg = PostMacCfg(
    usePostMac: U8,
    isAEq1: U8,
    isBEq0: U8,
    fixedPointQuatAccrc: U8,
    paramA: bv32,
    paramB: bv32)

  /** Pooling-mode parameters. */
  datatype PoolModeCfg = PoolModeCfg(
    calFmt: PoolCalFmt,
    horizontalStride: U8,
    verticalStride: U8,
    poolWindowW: U8,
    poolWindowH: U8,
    nonZeroConstPaddingMode: U8,
    constToFill: U16,
    postMac: PostMacCfg)

  /** Up-sampling-mode parameters. */
  datatype UpsModeCfg = UpsModeCfg(
    calFmt: PoolCalFmt,
    upsampleHorizontalN: U8,
    upsampleVerticalN: U8,
    nonZeroConstPaddingMode: U8,
    constToFill: U16,
    postMac: PostMacCfg)

  /** The registers of the pooling accelerator's register regions. */
  datatype PoolReg =
    | Version | AccName | Info0 | Info1 | Info2 | Info3
    | Ctrl0
    | Sts0 | Sts1 | Sts2 | Sts3 | Sts4 | Sts5 | Sts6
    | CalCfg0 | CalCfg1 | CalCfg2 | CalCfg3 | CalCfg4 | CalCfg5
    | FmapCfg0 | FmapCfg1 | FmapCfg2 | FmapCfg3 | FmapCfg4 | FmapCfg5 | FmapCfg6
    | BufCfg0 | BufCfg1
}
