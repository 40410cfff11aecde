/**
 * What the two convolution driver revisions share in their configuration
 * routine: the parameter checks on the layer, the geometry and buffer
 * arithmetic (padded sizes, the dilated kernel footprint, output sizes,
 * feature-map and weight buffer rows, intermediate-result rows; all uint32
 * in the driver), and the register words that encode them.
 */
module ConvLayer {
  import opened Bits
  import opened ConvTypes
  import opened Registers

  /** A padding amount: at most 7, and zero unless the device supports that padding. */
  predicate PaddingLegal(amount: U8, supported: bool)
  {
    amount <= 7 && (amount > 0 ==> supported)
  }

  /** A stride: 1 to 8, and 1 unless the device supports large strides in that direction. */
  predicate StrideLegal(stride: U8, largeSupported: bool)
  {
    1 <= stride <= 8 && (stride > 1 ==> largeSupported)
  }

  predicate FormatSupported(caps: ConvCaps, f: CalFmt)
  {
    match f
    case Int8 => caps.int8Supported
    case Int16 => caps.int16Supported
    case Fp16 => caps.fp16Supported
  }

  /**
   * The checks both revisions make before deriving anything (each failing
   * one returns -2): a supported format, legal strides, 1 to 16
   * calculation rounds within the device maximum, a group count that
   * divides the channels (and, above one, group convolution support and as
   * many kernels as kernel channels), legal paddings, a dilation of at most
   * 15 that needs dilation support, and as many kernel channels as input
   * channels.
   */
  predicate LayerLegal(caps: ConvCaps, c: LayerCfg)
  {
    && FormatSupported(caps, c.cal.calFmt)
    && StrideLegal(c.cal.convVerticalStride, caps.largeVStrideSupported)
    && StrideLegal(c.cal.convHorizontalStride, caps.largeHStrideSupported)
    && 1 <= c.cal.calRoundN <= 16 && c.cal.calRoundN <= caps.maxCalRoundN
    && c.groupN != 0 && c.fmap.ifmapChnN % c.groupN == 0
    && (c.groupN > 1 ==> caps.groupConvSupported && c.kernal.kernalChnN == c.kernal.kernalN)
    && PaddingLegal(c.fmap.externalPaddingLeft, caps.extPaddingSupported)
    && PaddingLegal(c.fmap.externalPaddingRight, caps.extPaddingSupported)
    && PaddingLegal(c.fmap.externalPaddingTop, caps.extPaddingSupported)
    && PaddingLegal(c.fmap.externalPaddingBottom, caps.extPaddingSupported)
    && PaddingLegal(c.fmap.innerPaddingLeftRight, caps.innerPaddingSupported)
    && PaddingLegal(c.fmap.innerPaddingTopBottom, caps.innerPaddingSupported)
    && c.kernal.dilationN <= 15 && (c.kernal.dilationN > 0 ==> caps.kernalDilationSupported)
    && c.fmap.ifmapChnN == c.kernal.kernalChnN
  }

  /** Index of the last input row within the padded map: h + top + (h-1)*inner - 1. */
  function ExtIBottom(h: nat, top: nat, inner: nat): U32
  {
    W32(h + top + W32(h - 1) * inner - 1)
  }

  /** Padded length along one axis: the n samples, `inner` zeros between neighbours, and the border padding. */
  function ExtendedLen(n: nat, before: nat, after: nat, inner: nat): U32
  {
    W32(n + before + after + W32(n - 1) * inner)
  }

  /** The padded height, computed from the last-row index, agrees with the padded-length formula. */
  lemma ExtHeightFromBottom(h: nat, top: nat, bottom: nat, inner: nat)
    ensures W32(ExtIBottom(h, top, inner) + 1 + bottom) == ExtendedLen(h, top, bottom, inner)
  {
    W32Add(h + top + W32(h - 1) * inner - 1, 1 + bottom);
  }

  /** Footprint of a kernel of side k dilated by d: (k-1)*d zeros inserted between its taps. */
  function DilatedLen(k: nat, d: nat): (r: nat)
    requires k >= 1
    ensures r >= k
    ensures k % 2 == 1 ==> r % 2 == 1
    ensures k <= 11 && d <= 15 ==> r <= 161
  {
    DilatedLenFacts(k, d);
    k + (k - 1) * d
  }

  lemma DilatedLenFacts(k: nat, d: nat)
    requires k >= 1
    ensures k % 2 == 1 ==> (k + (k - 1) * d) % 2 == 1
    ensures k <= 11 && d <= 15 ==> k + (k - 1) * d <= 161
  {
    if k % 2 == 1 {
      var j := k / 2;
      assert (k - 1) * d == 2 * (j * d);
      DivUnique(k + (k - 1) * d, 2, j + j * d, 1);
    }
    if k <= 11 && d <= 15 {
      MulMono(k - 1, 10, d);
      MulMono(d, 15, 10);
    }
  }

  /**
   * Output size along one axis for stride s: -2 unless the stride divides
   * the uint32 difference between padded size and footprint, else that
   * quotient plus one.
   */
  function OutputLen(ext: U32, dil: U32, s: nat): (r: Outcome<U32>)
    requires s >= 1
    ensures r != Undefined
    ensures r.Fail? ==> r.code == -2
    ensures r.Ok? <==> W32(ext - dil) % s == 0
    ensures 1 <= dil <= ext && r.Ok? ==> r.value >= 1 && (r.value - 1) * s + dil == ext
  {
    var span := W32(ext - dil);
    if span % s != 0 then
      Fail(-2)
    else
      DivUnique(span, s, span / s, 0);
      Ok(W32(span / s + 1))
  }

  /** A narrow map with a wide footprint is not rejected: the uint32 difference wraps. */
  lemma NarrowMapWrapsOutputLen()
    ensures OutputLen(1, 3, 1) == Ok(0xFFFF_FFFF)
  {
  }

  /** The quotient x / unit clamped to cap. */
  function ClampedQuot(x: nat, unit: nat, cap: nat): (r: nat)
    requires unit > 0
    ensures r <= cap
    ensures r * unit <= x
    ensures r < cap ==> x < (r + 1) * unit
  {
    var q := x / unit;
    ClampedQuotFacts(x, unit, cap, q);
    if q > cap then cap else q
  }

  lemma ClampedQuotFacts(x: nat, unit: nat, cap: nat, q: nat)
    requires unit > 0 && q == x / unit
    ensures q * unit <= x < (q + 1) * unit
    ensures q > cap ==> cap * unit <= x
  {
    DivBounds(x, unit);
    if q > cap {
      MulMono(cap, q, unit);
    }
  }

  lemma ProductIsU32(a: nat, b: nat)
    requires a < 0x1_0000 && b < 0x1_0000
    ensures W32(a * b) == a * b
  {
    var p := a * b;
    assert p < 0x1_0000_0000 by { MulLess(a, b, 0x1_0000, 0x1_0000); }
  }

  /**
   * Feature-map buffer rows: the rows of `coln` surfaces that fit in the
   * allocated banks, clamped to `maxRows`.
   */
  function FmbufRows(fmbufbankn: nat, depth: nat, coln: FmbufColn, maxRows: nat): (r: nat)
    requires fmbufbankn < 0x1_0000 && depth < 0x1_0000
    ensures r <= maxRows
    ensures r * coln.Surfaces() <= fmbufbankn * depth
    ensures r < maxRows ==> fmbufbankn * depth < (r + 1) * coln.Surfaces()
  {
    ProductIsU32(fmbufbankn, depth);
    FmbufColnIsPowerOfTwo(coln);
    ClampedQuot(W32(fmbufbankn * depth), Pow(2, coln.Shift()), maxRows)
  }

  /**
   * Weight buffer groups: the weight blocks of k*k*sfc surfaces that fit in
   * the banks left after the feature-map buffer, clamped to 256.
   */
  function KbufGroups(freeBanks: nat, depth: nat, kernalLen: nat, sfc: WgtblkSfcN): (r: nat)
    requires freeBanks < 0x1_0000 && depth < 0x1_0000 && kernalLen >= 1
    ensures r <= 256
    ensures r * (kernalLen * kernalLen * sfc.Surfaces()) <= freeBanks * depth
    ensures r < 256 ==> freeBanks * depth < (r + 1) * (kernalLen * kernalLen * sfc.Surfaces())
  {
    ProductIsU32(freeBanks, depth);
    WgtblkSfcNIsPowerOfTwo(sfc);
    MulAtLeast(kernalLen, kernalLen);
    DivDiv(W32(freeBanks * depth), kernalLen * kernalLen, Pow(2, sfc.Shift()));
    ClampedQuot(W32(freeBanks * depth), kernalLen * kernalLen * Pow(2, sfc.Shift()), 256)
  }

  /** Intermediate-result rows held at once: whole rows of `banksPerRow` banks, clamped to 16. */
  function RowsBufferable(bankN: nat, banksPerRow: nat): (r: nat)
    requires banksPerRow > 0
    ensures r <= 16
    ensures r * banksPerRow <= bankN
    ensures r < 16 ==> bankN < (r + 1) * banksPerRow
    ensures r == 0 <==> bankN < banksPerRow
  {
    ClampedQuot(bankN, banksPerRow, 16)
  }

  /** The quantities the configuration routine derives before it writes any register. */
  datatype ConvLayout = ConvLayout(
    ifmapSize: U32,
    nForeachGroup: U32,
    dataSizeForeachGroup: U32,
    extIBottom: U32,
    dilatedKernalLen: U32,
    cgrpnForeachKernalSet: U32,
    kernalSetN: U32,
    ofmapWidth: U32,
    ofmapHeight: U32,
    fmbufrown: U32,
    kbufgrpn: U32,
    midResItemNForeachRow: U32,
    midResBufRowNBufferable: U32)

  /** The format code, strides minus one and calculation rounds minus one, as cal_cfg packs them. */
  function CalCfgWord(fmt: bv32, vField: bv32, hField: bv32, roundsField: bv32): bv32
  {
    fmt | (vField << 8) | (hField << 11) | (roundsField << 16)
  }

  /** cal_cfg for the calculation parameters: each stride and the round count minus one. */
  function CalCfgOf(cal: CalParams): bv32
  {
    CalCfgWord(cal.calFmt.Code(), Word(cal.convVerticalStride) - 1,
               Word(cal.convHorizontalStride) - 1, Word(cal.calRoundN) - 1)
  }

  /** The output element type and output width and height minus one, as fmap_cfg5 packs them. */
  function FmapCfg5Word(t: bv32, widthField: bv32, heightField: bv32): bv32
  {
    t | (widthField << 2) | (heightField << 17)
  }

  /** The row-length code and the feature-map row count minus one, as buf_cfg1 packs them. */
  function BufCfg1Word(coln: bv32, rowsField: bv32): bv32
  {
    coln | (rowsField << 16)
  }

  /**
   * The register words both revisions write, apart from grp_conv1: the
   * calculation, group, feature-map, kernel and buffer registers.
   */
  datatype LayerImage = LayerImage(
    calCfg: bv32,
    grpConv0: bv32,
    fmapCfg0: bv32,
    fmapCfg1: bv32,
    fmapCfg2: bv32,
    fmapCfg3: bv32,
    fmapCfg4: bv32,
    fmapCfg5: bv32,
    krnCfg0: bv32,
    krnCfg1: bv32,
    krnCfg2: bv32,
    krnCfg3: bv32,
    bufCfg0: bv32,
    bufCfg1: bv32,
    bufCfg2: bv32,
    bufCfg3: bv32)

  /** How the configuration routine packs the request and the derived layout into the shared registers. */
  function LayerImageOf(c: LayerCfg, l: ConvLayout): LayerImage
  {
    LayerImage(
      calCfg := CalCfgOf(c.cal),
      grpConv0 := (if c.groupN > 1 then 1 else 0) | (Word(l.dataSizeForeachGroup) << 1),
      fmapCfg0 := c.ifmapBaseaddr,
      fmapCfg1 := c.ofmapBaseaddr,
      fmapCfg2 := (Word(c.fmap.ifmapWidth) - 1) | ((Word(c.fmap.ifmapChnN) - 1) << 16),
      fmapCfg3 := Word(l.ifmapSize) - 1,
      fmapCfg4 := Word(c.fmap.externalPaddingLeft)
        | (Word(c.fmap.externalPaddingTop) << 3)
        | (Word(c.fmap.innerPaddingLeftRight) << 6)
        | (Word(c.fmap.innerPaddingTopBottom) << 9)
        | (Word(l.extIBottom) << 16),
      fmapCfg5 := FmapCfg5Word(c.fmap.ofmapDataType.Code(), Word(l.ofmapWidth) - 1, Word(l.ofmapHeight) - 1),
      krnCfg0 := c.kernalWgtBaseaddr,
      krnCfg1 := c.kernal.kernalShape.Code()
        | (Word(c.kernal.dilationN) << 4)
        | ((Word(l.dilatedKernalLen) - 1) << 8)
        | ((Word(l.cgrpnForeachKernalSet) - 1) << 16),
      krnCfg2 := (Word(c.kernal.kernalN) - 1) | ((Word(l.kernalSetN) - 1) << 16),
      krnCfg3 := Word(c.maxWgtblkW),
      bufCfg0 := Word(c.buffer.fmbufbankn),
      bufCfg1 := BufCfg1Word(c.buffer.fmbufcoln.Code(), Word(l.fmbufrown) - 1),
      bufCfg2 := c.buffer.sfcNEachWgtblk.Code() | ((Word(l.kbufgrpn) - 1) << 8),
      bufCfg3 := (Word(l.midResItemNForeachRow) - 1) | ((Word(l.midResBufRowNBufferable) - 1) << 16))
  }

  /** grp_conv1: channels per group and group count, each minus one. */
  function GrpConv1Word(groupN: U16, l: ConvLayout): bv32
  {
    (Word(l.nForeachGroup) - 1) | ((Word(groupN) - 1) << 16)
  }

  /**
   * cal_cfg keeps its 3-bit format code, two 3-bit stride fields and the
   * 4-bit round field apart, with nothing above bit 19: each reads back as
   * written.
   */
  lemma CalCfgFieldsDecode(fmt: bv32, vField: bv32, hField: bv32, roundsField: bv32)
    requires fmt <= 7 && vField <= 7 && hField <= 7 && roundsField <= 0xF
    ensures CalCfgWord(fmt, vField, hField, roundsField) & 7 == fmt
    ensures (CalCfgWord(fmt, vField, hField, roundsField) >> 8) & 7 == vField
    ensures (CalCfgWord(fmt, vField, hField, roundsField) >> 11) & 7 == hField
    ensures CalCfgWord(fmt, vField, hField, roundsField) >> 16 == roundsField
  {
  }

  /** Strides of 1 to 8 and 1 to 16 rounds fit their cal_cfg fields once one is subtracted. */
  lemma CalParamsFitFields(cal: CalParams)
    requires 1 <= cal.convVerticalStride <= 8 && 1 <= cal.convHorizontalStride <= 8
    requires 1 <= cal.calRoundN <= 16
    ensures cal.calFmt.Code() <= 7
    ensures Word(cal.convVerticalStride) - 1 <= 7 && Word(cal.convHorizontalStride) - 1 <= 7
    ensures Word(cal.calRoundN) - 1 <= 0xF
  {
    SmallFieldFits(cal.convVerticalStride);
    SmallFieldFits(cal.convHorizontalStride);
    SmallFieldFits(cal.calRoundN);
  }

  /** A count of 1 to 16 fits a 4-bit field once one is subtracted, and a count of 1 to 8 a 3-bit one. */
  lemma SmallFieldFits(x: nat)
    requires 1 <= x <= 16
    ensures Word(x) - 1 <= 15
    ensures x <= 8 ==> Word(x) - 1 <= 7
  {
    if x <= 8 {
      if x <= 4 {
        if x == 1 {} else if x == 2 {} else if x == 3 {} else {}
      } else {
        if x == 5 {} else if x == 6 {} else if x == 7 {} else {}
      }
    } else {
      if x <= 12 {
        if x == 9 {} else if x == 10 {} else if x == 11 {} else {}
      } else {
        if x == 13 {} else if x == 14 {} else if x == 15 {} else {}
      }
    }
  }

  /** cal_cfg for legal calculation parameters decodes back to the format code, the strides and the rounds. */
  lemma CalCfgOfDecodes(cal: CalParams)
    requires 1 <= cal.convVerticalStride <= 8 && 1 <= cal.convHorizontalStride <= 8
    requires 1 <= cal.calRoundN <= 16
    ensures CalCfgOf(cal) & 7 == cal.calFmt.Code()
    ensures (CalCfgOf(cal) >> 8) & 7 == Word(cal.convVerticalStride) - 1
    ensures (CalCfgOf(cal) >> 11) & 7 == Word(cal.convHorizontalStride) - 1
    ensures CalCfgOf(cal) >> 16 == Word(cal.calRoundN) - 1
  {
    CalParamsFitFields(cal);
    CalCfgFieldsDecode(cal.calFmt.Code(), Word(cal.convVerticalStride) - 1,
                       Word(cal.convHorizontalStride) - 1, Word(cal.calRoundN) - 1);
  }

  /**
   * fmap_cfg5 keeps its element-type code and two 15-bit fields apart: each
   * reads back as written.
   */
  lemma FmapCfg5FieldsDecode(code: bv32, a: bv32, b: bv32)
    requires code <= 3 && a <= 0x7FFF && b <= 0x7FFF
    ensures FmapCfg5Word(code, a, b) & 3 == code
    ensures (FmapCfg5Word(code, a, b) >> 2) & 0x7FFF == a
    ensures FmapCfg5Word(code, a, b) >> 17 == b
  {
  }

  /** A width above 0x8000 is not rejected; its top bit lands in the height field. */
  lemma WideOutputSpillsIntoHeight()
    ensures FmapCfg5Word(O1Byte.Code(), Word(0x8001) - 1, Word(1) - 1) >> 17 == 1
  {
  }

  /** buf_cfg1 keeps the 4-bit row-length code and the 16-bit row field apart: each reads back as written. */
  lemma BufCfg1FieldsDecode(coln: bv32, rowsField: bv32)
    requires coln <= 0xF && rowsField <= 0xFFFF
    ensures BufCfg1Word(coln, rowsField) & 0xF == coln
    ensures BufCfg1Word(coln, rowsField) >> 16 == rowsField
  {
  }

  /**
   * When the allocated banks hold less than one row, the row count is 0
   * and buf_cfg1 reports the largest row count its field can hold.
   */
  lemma EmptyFeatureMapBufferEncodesFullField(coln: FmbufColn)
    ensures FmbufRows(1, 1, coln, 0x1_0000) == 0
    ensures BufCfg1Word(coln.Code(), Word(0) - 1) >> 16 == 0xFFFF
  {
    FmbufColnIsPowerOfTwo(coln);
  }
  /** Input map size, width times height. */
  function IfmapSize(f: FmapParams): nat
  {
    f.ifmapWidth * f.ifmapHeight
  }

  /** Input channels per group. */
  function ChannelsPerGroup(c: LayerCfg): nat
    requires c.groupN != 0
  {
    c.fmap.ifmapChnN / c.groupN
  }

  /** Channels each kernel set covers: one group's channels, or all kernel channels without groups. */
  function ChannelsPerSet(c: LayerCfg): nat
    requires c.groupN != 0
  {
    if c.groupN > 1 then ChannelsPerGroup(c) else c.kernal.kernalChnN
  }

  /** Channel groups per kernel set: its channels over the channel parallelism, rounded up. */
  function ChannelGroups(c: LayerCfg, atomicC: nat): (r: nat)
    requires c.groupN != 0 && atomicC > 0
    ensures r * atomicC >= ChannelsPerSet(c)
    ensures r > 0 ==> (r - 1) * atomicC < ChannelsPerSet(c)
    ensures r <= 0xFFFF
  {
    CeilDiv(ChannelsPerSet(c), atomicC)
  }

  /** Kernel sets: the group count, or without groups the kernels over the weight block width, rounded up. */
  function KernalSetCount(c: LayerCfg): (r: nat)
    requires c.groupN > 1 || c.maxWgtblkW > 0
    ensures c.groupN > 1 ==> r == c.groupN
    ensures c.groupN <= 1 ==> r * c.maxWgtblkW >= c.kernal.kernalN
    ensures c.groupN <= 1 && r > 0 ==> (r - 1) * c.maxWgtblkW < c.kernal.kernalN
    ensures r <= 0xFFFF
  {
    if c.groupN > 1 then c.groupN else CeilDiv(c.kernal.kernalN, c.maxWgtblkW)
  }

  /**
   * Channel groups per kernel set and kernel sets; Undefined exactly where
   * the driver divides by zero.
   */
  function KernalSets(c: LayerCfg, atomicC: nat): (r: Outcome<(U32, U32)>)
    requires c.groupN != 0
    ensures r == Undefined <==> atomicC == 0 || (c.groupN <= 1 && c.maxWgtblkW == 0)
    ensures !r.Fail?
  {
    if atomicC == 0 || (c.groupN <= 1 && c.maxWgtblkW == 0) then Undefined
    else Ok((ChannelGroups(c, atomicC), KernalSetCount(c)))
  }

  /** The padded input width. */
  function ExtWidth(c: LayerCfg): U32
  {
    ExtendedLen(c.fmap.ifmapWidth, c.fmap.externalPaddingLeft, c.fmap.externalPaddingRight,
                c.fmap.innerPaddingLeftRight)
  }

  /** The padded input height, as the driver computes it from the last-row index. */
  function ExtHeight(c: LayerCfg): U32
  {
    W32(ExtIBottom(c.fmap.ifmapHeight, c.fmap.externalPaddingTop, c.fmap.innerPaddingTopBottom)
        + 1 + c.fmap.externalPaddingBottom)
  }

  /** The dilated kernel footprint; at most 161 for a dilation of at most 15. */
  function Footprint(c: LayerCfg): (r: U32)
    requires c.kernal.dilationN <= 15
    ensures r >= c.kernal.kernalShape.Len() && r <= 161
  {
    DilatedLen(c.kernal.kernalShape.Len(), c.kernal.dilationN)
  }

  /**
   * Output width and height: -2 unless each stride divides the span the
   * dilated kernel leaves in the padded map; when the footprint fits, the
   * strided windows then cover the padded map exactly.
   */
  function OutputSize(c: LayerCfg): (r: Outcome<(U32, U32)>)
    requires c.cal.convVerticalStride >= 1 && c.cal.convHorizontalStride >= 1 && c.kernal.dilationN <= 15
    ensures r != Undefined && (r.Fail? ==> r.code == -2)
    ensures r.Ok? <==> (W32(ExtWidth(c) - Footprint(c)) % c.cal.convHorizontalStride == 0
                        && W32(ExtHeight(c) - Footprint(c)) % c.cal.convVerticalStride == 0)
    ensures r.Ok? && Footprint(c) <= ExtWidth(c) ==>
      r.value.0 >= 1 && (r.value.0 - 1) * c.cal.convHorizontalStride + Footprint(c) == ExtWidth(c)
    ensures r.Ok? && Footprint(c) <= ExtHeight(c) ==>
      r.value.1 >= 1 && (r.value.1 - 1) * c.cal.convVerticalStride + Footprint(c) == ExtHeight(c)
  {
    var ow := OutputLen(ExtWidth(c), Footprint(c), c.cal.convHorizontalStride);
    var oh := OutputLen(ExtHeight(c), Footprint(c), c.cal.convVerticalStride);
    if ow.Ok? && oh.Ok? then Ok((ow.value, oh.value)) else Fail(-2)
  }
}
