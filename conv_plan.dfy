/**
 * The configuration routine of the current convolution driver revision as
 * a pure function: the busy test, the parameter checks, the derived layout,
 * and the register words it writes.
 */
module ConvPlan {
  import opened Bits
  import opened ConvTypes
  import opened ConvLayer
  import opened Registers

  /**
   * The busy test: the unit is idle only when all three idle flags of
   * sts0 (bits 0 to 2) are set.
   */
  function Busy(sts0: bv32): (b: bool)
    ensures !b <==> sts0 & 1 != 0 && sts0 & 2 != 0 && sts0 & 4 != 0
  {
    sts0 & 7 != 7
  }

  predicate IsFixedPoint(f: CalFmt)
  {
    f == Int8 || f == Int16
  }

  /**
   * The batch-normalisation and activation checks: the units requested
   * must be supported, and with a fixed-point format each quantisation
   * precision in use is below 32.
   */
  predicate BnActLegal(p: ConvProp, fmt: CalFmt, b: BnActParams)
  {
    && (b.useBnUnit != 0 ==> p.bnSupported)
    && (b.actFuncType == ActLeakyRelu ==> p.leakyReluSupported)
    && (b.actFuncType == ActSigmoid ==> p.sigmoidSupported)
    && (b.actFuncType == ActTanh ==> p.tanhSupported)
    && (IsFixedPoint(fmt) && b.useBnUnit != 0 ==> b.bnFixedPointQuatAccrc < 32)
    && (IsFixedPoint(fmt) && b.actFuncType == ActLeakyRelu ==> b.leakyReluPointQuatAccrc < 32)
    && (IsFixedPoint(fmt) && b.actFuncType == ActSigmoid ==> b.sigmoidPointQuatAccrc < 32)
  }

  /**
   * Every check of the configuration routine that returns -2 before any
   * quantity is derived: the shared layer checks, the batch-normalisation
   * and activation checks, at least one and fewer than all physical
   * buffer banks for the feature-map buffer, and at most the device's
   * maximum number of kernels.
   */
  predicate CfgLegal(p: ConvProp, c: ConvCfg)
  {
    && LayerLegal(p.caps, c.layer)
    && BnActLegal(p, c.layer.cal.calFmt, c.bnAct)
    && c.layer.buffer.fmbufbankn != 0 && (c.layer.buffer.fmbufbankn as int) < p.caps.phyBufBankN
    && c.layer.kernal.kernalN as int <= p.maxKernalN
  }

  /** Intermediate-result items per output row: calculation rounds times output width. */
  function MidResItems(rounds: U8, ofmapWidth: U32): U32
  {
    W32(rounds * ofmapWidth)
  }

  /**
   * Banks one intermediate-result row occupies: its items scaled by the
   * buffer's clock ratio, over the bank depth, rounded up.
   */
  function MidResBanks(p: ConvProp, items: U32): (r: nat)
    requires p.caps.midResBufBankDepth > 0
    ensures r * p.caps.midResBufBankDepth >= W32(items * p.midResBufClkRate)
    ensures r > 0 ==> (r - 1) * p.caps.midResBufBankDepth < W32(items * p.midResBufClkRate)
    ensures r <= W32(items * p.midResBufClkRate)
  {
    CeilDiv(W32(items * p.midResBufClkRate), p.caps.midResBufBankDepth)
  }

  /**
   * The intermediate-result items per row and the rows the buffer holds at
   * once (at most 16): -2 when not even one row fits, Undefined when the
   * bank depth or the banks per row is zero.
   */
  function MidResRows(p: ConvProp, rounds: U8, ofmapWidth: U32): (r: Outcome<(U32, U32)>)
    ensures r == Undefined <==>
      p.caps.midResBufBankDepth == 0 || MidResBanks(p, MidResItems(rounds, ofmapWidth)) == 0
    ensures r.Fail? ==> r.code == -2 && p.caps.midResBufBankN < MidResBanks(p, MidResItems(rounds, ofmapWidth))
    ensures r.Ok? ==> var banks := MidResBanks(p, MidResItems(rounds, ofmapWidth));
      && r.value.0 == MidResItems(rounds, ofmapWidth)
      && 1 <= r.value.1 <= 16
      && r.value.1 * banks <= p.caps.midResBufBankN
      && (r.value.1 < 16 ==> p.caps.midResBufBankN < (r.value.1 + 1) * banks)
  {
    var items := MidResItems(rounds, ofmapWidth);
    if p.caps.midResBufBankDepth == 0 then Undefined
    else
      var banks := MidResBanks(p, items);
      if banks == 0 then Undefined
      else
        var rows := RowsBufferable(p.caps.midResBufBankN, banks);
        if rows == 0 then Fail(-2) else Ok((items, rows))
  }

  /**
   * The derived layout of a configuration that passed the checks. Besides
   * the -2 of a stride that does not divide its span and of an
   * intermediate buffer too small for one row, the driver has undefined
   * behaviour (Undefined) when the width times the height overflows int
   * and where it divides by zero.
   */
  function Plan(p: ConvProp, c: ConvCfg): (r: Outcome<ConvLayout>)
    requires p.InRange() && CfgLegal(p, c)
    ensures r.Fail? ==> r.code == -2
    ensures r.Ok? <==>
      && IfmapSize(c.layer.fmap) < 0x8000_0000
      && KernalSets(c.layer, p.caps.atomicC).Ok?
      && OutputSize(c.layer).Ok?
      && MidResRows(p, c.layer.cal.calRoundN, OutputSize(c.layer).value.0).Ok?
    ensures r.Fail? <==>
      && IfmapSize(c.layer.fmap) < 0x8000_0000
      && KernalSets(c.layer, p.caps.atomicC).Ok?
      && (!OutputSize(c.layer).Ok? || MidResRows(p, c.layer.cal.calRoundN, OutputSize(c.layer).value.0).Fail?)
    ensures r == Undefined <==>
      || IfmapSize(c.layer.fmap) >= 0x8000_0000
      || KernalSets(c.layer, p.caps.atomicC) == Undefined
      || (OutputSize(c.layer).Ok? && MidResRows(p, c.layer.cal.calRoundN, OutputSize(c.layer).value.0) == Undefined)
    ensures r.Ok? ==> var l := r.value;
      && OutputSize(c.layer) == Ok((l.ofmapWidth, l.ofmapHeight))
      && MidResRows(p, c.layer.cal.calRoundN, l.ofmapWidth) == Ok((l.midResItemNForeachRow, l.midResBufRowNBufferable))
      && 1 <= l.midResBufRowNBufferable <= 16
      && BuffersFit(p.caps, c.layer, p.caps.maxFmbufRowN, l)
  {
    var L := c.layer;
    if IfmapSize(L.fmap) >= 0x8000_0000 then Undefined
    else
      var sets := KernalSets(L, p.caps.atomicC);
      if sets == Undefined then Undefined
      else
        var size := OutputSize(L);
        if !size.Ok? then Fail(-2)
        else
          var mid := MidResRows(p, L.cal.calRoundN, size.value.0);
          if mid == Undefined then Undefined
          else if !mid.Ok? then Fail(-2)
          else
            Ok(LayoutOf(p.caps, L, p.caps.maxFmbufRowN, sets.value, size.value, mid.value))
  }

  /**
   * How the layout shares the physical buffer banks: the feature-map rows
   * of `fmbufcoln` surfaces fit the banks given to the feature-map buffer
   * and are as many as fit, up to `maxRows`; the weight-block groups of
   * k*k*sfc surfaces fit the banks left over and are as many as fit, up
   * to 256.
   */
  predicate BuffersFit(caps: ConvCaps, L: LayerCfg, maxRows: nat, l: ConvLayout)
  {
    var fmBudget := L.buffer.fmbufbankn as int * caps.phyBufBankDepth;
    var kBudget := (caps.phyBufBankN - L.buffer.fmbufbankn as int) * caps.phyBufBankDepth;
    var row := L.buffer.fmbufcoln.Surfaces();
    var block := L.kernal.kernalShape.Len() * L.kernal.kernalShape.Len() * L.buffer.sfcNEachWgtblk.Surfaces();
    && l.fmbufrown <= maxRows
    && l.fmbufrown * row <= fmBudget
    && (l.fmbufrown < maxRows ==> fmBudget < (l.fmbufrown + 1) * row)
    && l.kbufgrpn <= 256
    && l.kbufgrpn * block <= kBudget
    && (l.kbufgrpn < 256 ==> kBudget < (l.kbufgrpn + 1) * block)
  }

  /**
   * The layout record of an accepted configuration from its kernel sets,
   * output size and intermediate-buffer rows: the feature-map buffer rows
   * are capped by `maxRows` (the device maximum in the current revision, a
   * constant in the legacy one) and fit the banks given to it, and at most
   * 256 kernel-buffer groups are used.
   */
  function LayoutOf(caps: ConvCaps, L: LayerCfg, maxRows: nat, sets: (U32, U32), size: (U32, U32), mid: (U32, U32))
    : (l: ConvLayout)
    requires caps.InRange() && LayerLegal(caps, L) && (L.buffer.fmbufbankn as int) < caps.phyBufBankN
    requires IfmapSize(L.fmap) < 0x8000_0000
    ensures l.ofmapWidth == size.0 && l.ofmapHeight == size.1
    ensures l.midResItemNForeachRow == mid.0 && l.midResBufRowNBufferable == mid.1
    ensures BuffersFit(caps, L, maxRows, l)
  {
    ConvLayout(
      ifmapSize := IfmapSize(L.fmap),
      nForeachGroup := ChannelsPerGroup(L),
      dataSizeForeachGroup :=
        W32(IfmapSize(L.fmap) * ChannelsPerGroup(L) * (if L.cal.calFmt == Int8 then 1 else 2)),
      extIBottom := ExtIBottom(L.fmap.ifmapHeight, L.fmap.externalPaddingTop, L.fmap.innerPaddingTopBottom),
      dilatedKernalLen := Footprint(L),
      cgrpnForeachKernalSet := sets.0,
      kernalSetN := sets.1,
      ofmapWidth := size.0,
      ofmapHeight := size.1,
      fmbufrown := FmbufRows(L.buffer.fmbufbankn, caps.phyBufBankDepth, L.buffer.fmbufcoln, maxRows),
      kbufgrpn := KbufGroups(caps.phyBufBankN - L.buffer.fmbufbankn, caps.phyBufBankDepth,
                             L.kernal.kernalShape.Len(), L.buffer.sfcNEachWgtblk),
      midResItemNForeachRow := mid.0,
      midResBufRowNBufferable := mid.1)
  }

  /** The batch-normalisation enable, precision and parameter-shortcut fields of bn_cfg. */
  function BnCfgWord(b: BnActParams): bv32
  {
    Word(b.useBnUnit) | (Word(b.bnFixedPointQuatAccrc) << 8) | (Word(b.bnIsAEq1) << 16) | (Word(b.bnIsBEq0) << 17)
  }

  /** The activation code and the two activation precisions of act_cfg0. */
  function ActCfg0Word(b: BnActParams): bv32
  {
    b.actFuncType.Code() | (Word(b.leakyReluPointQuatAccrc) << 8) | (Word(b.sigmoidPointQuatAccrc) << 16)
  }

  /**
   * Every register word the configuration routine writes: the shared
   * layer words, grp_conv1 only with groups, bn_cfg and act_cfg0, and
   * act_cfg1 (the bit pattern of the leaky-ReLU alpha) only with that
   * activation.
   */
  datatype ConvImage = ConvImage(
    layer: LayerImage,
    grpConv1: Option<bv32>,
    bnCfg: bv32,
    actCfg0: bv32,
    actCfg1: Option<bv32>)

  function ImageOf(c: ConvCfg, l: ConvLayout): (img: ConvImage)
    ensures img.grpConv1.Some? <==> c.layer.groupN > 1
    ensures img.actCfg1.Some? <==> c.bnAct.actFuncType == ActLeakyRelu
  {
    ConvImage(
      layer := LayerImageOf(c.layer, l),
      grpConv1 := if c.layer.groupN > 1 then Some(GrpConv1Word(c.layer.groupN, l)) else None,
      bnCfg := BnCfgWord(c.bnAct),
      actCfg0 := ActCfg0Word(c.bnAct),
      actCfg1 := if c.bnAct.actFuncType == ActLeakyRelu then Some(c.bnAct.leakyReluParamAlpha) else None)
  }

  /**
   * The configuration routine: -1 while busy, -2 for a rejected
   * configuration, otherwise the register words to write.
   */
  function Compile(p: ConvProp, sts0: bv32, c: ConvCfg): (r: Outcome<ConvImage>)
    requires p.InRange()
    ensures r == Fail(-1) <==> Busy(sts0)
    ensures r.Fail? ==> r.code == -1 || r.code == -2
  {
    if Busy(sts0) then Fail(-1)
    else if !CfgLegal(p, c) then Fail(-2)
    else
      match Plan(p, c)
      case Ok(l) => Ok(ImageOf(c, l))
      case Fail(e) => Fail(e)
      case Undefined => Undefined
  }

  /**
   * When the configuration routine accepts, rejects with -2, or reaches
   * undefined behaviour: a configuration is accepted exactly when the unit
   * is idle, every check passes and the derivation succeeds, and then the
   * image is the one the derived layout determines.
   */
  lemma CompileAccepts(p: ConvProp, sts0: bv32, c: ConvCfg)
    requires p.InRange()
    ensures !Busy(sts0) && !CfgLegal(p, c) ==> Compile(p, sts0, c) == Fail(-2)
    ensures Compile(p, sts0, c).Ok? <==> !Busy(sts0) && CfgLegal(p, c) && Plan(p, c).Ok?
    ensures Compile(p, sts0, c).Ok? <==>
      && !Busy(sts0) && CfgLegal(p, c)
      && IfmapSize(c.layer.fmap) < 0x8000_0000
      && KernalSets(c.layer, p.caps.atomicC).Ok?
      && OutputSize(c.layer).Ok?
      && MidResRows(p, c.layer.cal.calRoundN, OutputSize(c.layer).value.0).Ok?
    ensures Compile(p, sts0, c) == Fail(-2) <==>
      && !Busy(sts0)
      && (|| !CfgLegal(p, c)
          || (&& IfmapSize(c.layer.fmap) < 0x8000_0000
              && KernalSets(c.layer, p.caps.atomicC).Ok?
              && (!OutputSize(c.layer).Ok? || MidResRows(p, c.layer.cal.calRoundN, OutputSize(c.layer).value.0).Fail?)))
    ensures Compile(p, sts0, c) == Undefined <==> !Busy(sts0) && CfgLegal(p, c) && Plan(p, c) == Undefined
    ensures Compile(p, sts0, c).Ok? ==> Compile(p, sts0, c).value == ImageOf(c, Plan(p, c).value)
  {
  }

  /**
   * An accepted configuration's cal_cfg decodes back to its format code,
   * its strides and its calculation rounds (each field holding the value
   * minus one), and grp_conv1 is written exactly for a grouped convolution.
   */
  lemma AcceptedImageDecodes(p: ConvProp, sts0: bv32, c: ConvCfg)
    requires p.InRange() && Compile(p, sts0, c).Ok?
    ensures var img := Compile(p, sts0, c).value;
      var w := img.layer.calCfg;
      && w & 7 == c.layer.cal.calFmt.Code()
      && (w >> 8) & 7 == Word(c.layer.cal.convVerticalStride) - 1
      && (w >> 11) & 7 == Word(c.layer.cal.convHorizontalStride) - 1
      && w >> 16 == Word(c.layer.cal.calRoundN) - 1
      && (img.grpConv1.Some? <==> c.layer.groupN > 1)
  {
    CompileAccepts(p, sts0, c);
    assert CfgLegal(p, c);
    assert Compile(p, sts0, c).value.layer.calCfg == CalCfgOf(c.layer.cal);
    CalCfgOfDecodes(c.layer.cal);
  }
}
