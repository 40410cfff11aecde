/**
 * The configuration routine of the legacy convolution driver revision as a
 * pure function. It shares the layer checks, the derived quantities and
 * the register packing with the current revision, and differs in four
 * places: the feature-map buffer must leave at least two banks free, there
 * is no kernel-count limit, the feature-map buffer rows are capped at 1024
 * whatever the device reports, and the intermediate-result buffer is sized
 * without a clock ratio and without rejecting a row that does not fit.
 */
module ConvLegacyPlan {
  import opened Bits
  import opened Ident
  import opened ConvTypes
  import opened ConvLayer
  import opened ConvPlan

  /** The properties the legacy init records: the identity and the shared capability record. */
  datatype LegacyConvProp = LegacyConvProp(ident: DeviceIdent, caps: ConvCaps)
  {
    predicate InRange()
    {
      caps.InRange()
    }
  }

  /** The fixed cap on the feature-map buffer rows. */
  const LEGACY_MAX_FMBUF_ROWS: nat := 1024

  /**
   * Every check of the legacy configuration routine that returns -2 before
   * any quantity is derived: the shared layer checks, and at least one
   * feature-map buffer bank but fewer than the physical bank count minus
   * one (compared in int, so a bank count of zero rejects every request).
   */
  predicate LegacyCfgLegal(caps: ConvCaps, c: LayerCfg)
  {
    && LayerLegal(caps, c)
    && c.buffer.fmbufbankn != 0 && (c.buffer.fmbufbankn as int) < caps.phyBufBankN - 1
  }

  /**
   * The intermediate-result items per row and the rows the buffer holds at
   * once (at most 16, possibly none): Undefined when the bank depth or the
   * banks per row is zero. No clock ratio scales the items.
   */
  function LegacyMidResRows(caps: ConvCaps, rounds: U8, ofmapWidth: U32): (r: Outcome<(U32, U32)>)
    ensures !r.Fail?
    ensures r == Undefined <==> caps.midResBufBankDepth == 0 || MidResItems(rounds, ofmapWidth) == 0
    ensures r.Ok? ==> var banks := CeilDiv(MidResItems(rounds, ofmapWidth), caps.midResBufBankDepth);
      && r.value.0 == MidResItems(rounds, ofmapWidth)
      && r.value.1 <= 16
      && r.value.1 * banks <= caps.midResBufBankN
      && (r.value.1 < 16 ==> caps.midResBufBankN < (r.value.1 + 1) * banks)
  {
    var items := MidResItems(rounds, ofmapWidth);
    if caps.midResBufBankDepth == 0 then Undefined
    else
      var banks := CeilDiv(items, caps.midResBufBankDepth);
      if banks == 0 then Undefined
      else Ok((items, RowsBufferable(caps.midResBufBankN, banks)))
  }

  /**
   * The derived layout of a legacy configuration that passed the checks:
   * -2 when a stride does not divide its span, Undefined when the width
   * times the height overflows int and where the routine divides by zero.
   */
  function LegacyPlan(caps: ConvCaps, c: LayerCfg): (r: Outcome<ConvLayout>)
    requires caps.InRange() && LegacyCfgLegal(caps, c)
    ensures r.Fail? ==> r.code == -2
    ensures r.Ok? <==>
      && IfmapSize(c.fmap) < 0x8000_0000
      && KernalSets(c, caps.atomicC).Ok?
      && OutputSize(c).Ok?
      && LegacyMidResRows(caps, c.cal.calRoundN, OutputSize(c).value.0).Ok?
    ensures r.Fail? <==>
      IfmapSize(c.fmap) < 0x8000_0000 && KernalSets(c, caps.atomicC).Ok? && !OutputSize(c).Ok?
    ensures r == Undefined <==>
      || IfmapSize(c.fmap) >= 0x8000_0000
      || KernalSets(c, caps.atomicC) == Undefined
      || (OutputSize(c).Ok? && LegacyMidResRows(caps, c.cal.calRoundN, OutputSize(c).value.0) == Undefined)
    ensures r.Ok? ==> var l := r.value;
      && OutputSize(c) == Ok((l.ofmapWidth, l.ofmapHeight))
      && LegacyMidResRows(caps, c.cal.calRoundN, l.ofmapWidth) == Ok((l.midResItemNForeachRow, l.midResBufRowNBufferable))
      && l.midResBufRowNBufferable <= 16
      && BuffersFit(caps, c, LEGACY_MAX_FMBUF_ROWS, l)
  {
    if IfmapSize(c.fmap) >= 0x8000_0000 then Undefined
    else
      var sets := KernalSets(c, caps.atomicC);
      if sets == Undefined then Undefined
      else
        var size := OutputSize(c);
        if !size.Ok? then Fail(-2)
        else
          var mid := LegacyMidResRows(caps, c.cal.calRoundN, size.value.0);
          if mid == Undefined then Undefined
          else Ok(LayoutOf(caps, c, LEGACY_MAX_FMBUF_ROWS, sets.value, size.value, mid.value))
  }

  /** Every register word the legacy routine writes: the shared layer words and, always, grp_conv1. */
  datatype LegacyConvImage = LegacyConvImage(layer: LayerImage, grpConv1: bv32)

  function LegacyImageOf(c: LayerCfg, l: ConvLayout): (img: LegacyConvImage)
    ensures img.layer == LayerImageOf(c, l)
  {
    LegacyConvImage(LayerImageOf(c, l), GrpConv1Word(c.groupN, l))
  }

  /**
   * The legacy configuration routine: -1 while busy, -2 for a rejected
   * configuration, otherwise the register words to write.
   */
  function LegacyCompile(p: LegacyConvProp, sts0: bv32, c: LayerCfg): (r: Outcome<LegacyConvImage>)
    requires p.InRange()
    ensures r == Fail(-1) <==> Busy(sts0)
    ensures r.Fail? ==> r.code == -1 || r.code == -2
  {
    if Busy(sts0) then Fail(-1)
    else if !LegacyCfgLegal(p.caps, c) then Fail(-2)
    else
      match LegacyPlan(p.caps, c)
      case Ok(l) => Ok(LegacyImageOf(c, l))
      case Fail(e) => Fail(e)
      case Undefined => Undefined
  }

  /**
   * When the legacy routine accepts, rejects with -2, or reaches undefined
   * behaviour, and which image an accepted configuration yields.
   */
  lemma LegacyCompileAccepts(p: LegacyConvProp, sts0: bv32, c: LayerCfg)
    requires p.InRange()
    ensures !Busy(sts0) && !LegacyCfgLegal(p.caps, c) ==> LegacyCompile(p, sts0, c) == Fail(-2)
    ensures LegacyCompile(p, sts0, c).Ok? <==> !Busy(sts0) && LegacyCfgLegal(p.caps, c) && LegacyPlan(p.caps, c).Ok?
    ensures LegacyCompile(p, sts0, c).Ok? <==>
      && !Busy(sts0) && LegacyCfgLegal(p.caps, c)
      && IfmapSize(c.fmap) < 0x8000_0000
      && KernalSets(c, p.caps.atomicC).Ok?
      && OutputSize(c).Ok?
      && LegacyMidResRows(p.caps, c.cal.calRoundN, OutputSize(c).value.0).Ok?
    ensures LegacyCompile(p, sts0, c) == Fail(-2) <==>
      && !Busy(sts0)
      && (|| !LegacyCfgLegal(p.caps, c)
          || (IfmapSize(c.fmap) < 0x8000_0000 && KernalSets(c, p.caps.atomicC).Ok? && !OutputSize(c).Ok?))
    ensures LegacyCompile(p, sts0, c) == Undefined <==>
      !Busy(sts0) && LegacyCfgLegal(p.caps, c) && LegacyPlan(p.caps, c) == Undefined
    ensures LegacyCompile(p, sts0, c).Ok? ==>
      LegacyCompile(p, sts0, c).value == LegacyImageOf(c, LegacyPlan(p.caps, c).value)
  {
  }

  /**
   * An accepted legacy configuration leaves at least two physical banks to
   * the kernel buffer, so a request the current revision accepts with
   * every bank but one given to feature maps is rejected here.
   */
  lemma LegacyLeavesTwoKernelBanks(p: LegacyConvProp, sts0: bv32, c: LayerCfg)
    requires p.InRange() && LegacyCompile(p, sts0, c).Ok?
    ensures 1 <= c.buffer.fmbufbankn as int <= p.caps.phyBufBankN - 2
  {
    LegacyCompileAccepts(p, sts0, c);
  }

  /**
   * When one intermediate-result row needs more banks than the buffer has,
   * the legacy routine does not reject the request: it derives zero
   * bufferable rows and writes 0xFFFF, the row count minus one wrapped to
   * 16 bits, into the upper half of buf_cfg3.
   */
  lemma LegacyShortMidBufferWrapsRows(caps: ConvCaps, c: LayerCfg, l: ConvLayout)
    requires caps.InRange() && LegacyCfgLegal(caps, c) && LegacyPlan(caps, c) == Ok(l)
    requires caps.midResBufBankN < CeilDiv(l.midResItemNForeachRow, caps.midResBufBankDepth)
    ensures l.midResBufRowNBufferable == 0
    ensures LegacyImageOf(c, l).layer.bufCfg3 >> 16 == 0xFFFF
  {
    var size := OutputSize(c);
    var mid := LegacyMidResRows(caps, c.cal.calRoundN, size.value.0);
    assert mid.Ok? && l.midResBufRowNBufferable == mid.value.1;
    var items := Word(l.midResItemNForeachRow) - 1;
    assert LegacyImageOf(c, l).layer.bufCfg3 == items | ((Word(0) - 1) << 16);
  }

  /**
   * An accepted legacy configuration's cal_cfg decodes back to its format
   * code, its strides and its calculation rounds, each field holding the
   * value minus one.
   */
  lemma LegacyAcceptedImageDecodes(p: LegacyConvProp, sts0: bv32, c: LayerCfg)
    requires p.InRange() && LegacyCompile(p, sts0, c).Ok?
    ensures var w := LegacyCompile(p, sts0, c).value.layer.calCfg;
      && w & 7 == c.cal.calFmt.Code()
      && (w >> 8) & 7 == Word(c.cal.convVerticalStride) - 1
      && (w >> 11) & 7 == Word(c.cal.convHorizontalStride) - 1
      && w >> 16 == Word(c.cal.calRoundN) - 1
  {
    LegacyCompileAccepts(p, sts0, c);
    assert LegacyCompile(p, sts0, c).value.layer.calCfg == CalCfgOf(c.cal);
    CalCfgOfDecodes(c.cal);
  }
}
