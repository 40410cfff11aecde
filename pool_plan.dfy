/**
 * The two configuration routines of the pooling driver, pooling mode and
 * up-sampling mode, as pure functions from the recorded properties and
 * the parameter records to the register words they write. Each routine
 * computes its geometry and buffer quantities in C's integer types before
 * any support check: the padded sizes wrap to uint16_t, the pooling output
 * size divides a possibly negative int by the stride, and the
 * intermediate-result quantities divide by the bank depth and by the banks
 * per row, which is undefined behaviour (Undefined) when either is zero.
 */
module PoolPlan {
  import opened Bits
  import opened PoolTypes
  import ConvTypes
  import ConvLayer

  /** A padded side, computed in int and stored in a uint16_t. */
  function ExtLen(n: U16, a: U8, b: U8): (r: U16)
    ensures n + a + b < 0x1_0000 ==> r == n + a + b
    ensures n + a + b >= 0x1_0000 ==> r == n + a + b - 0x1_0000
  {
    if n + a + b >= 0x1_0000 then
      DivUnique(n + a + b, 0x1_0000, 1, n + a + b - 0x1_0000);
      W16(n + a + b)
    else
      W16(n + a + b)
  }

  /**
   * The pooling output length along one axis: the padded length minus the
   * window, in int, must be a multiple of the stride (C's remainder, whose
   * sign follows the dividend), else -1; the C quotient plus one is stored
   * in a uint16_t. A zero stride divides by zero before any stride check.
   */
  function PoolOutLen(ext: U16, window: U8, stride: U8): (r: Outcome<U16>)
    ensures r == Undefined <==> stride == 0
    ensures r.Fail? ==> r.code == -1
    ensures stride > 0 ==> (r.Ok? <==> (ext - window) % stride == 0)
  {
    if stride == 0 then Undefined
    else if CRem(ext - window, stride) != 0 then Fail(-1)
    else Ok(W16(CQuot(ext - window, stride) + 1))
  }

  /**
   * When a nonempty window fits the padded length, the accepted output
   * length places its windows stride apart so that the last one ends
   * exactly at the padded edge.
   */
  lemma PoolOutLenTiles(ext: U16, window: U8, stride: U8)
    requires 1 <= window <= ext && PoolOutLen(ext, window, stride).Ok?
    ensures var n := PoolOutLen(ext, window, stride).value;
      n >= 1 && (n - 1) * stride + window == ext
  {
    var x := ext - window;
    var q := x / stride;
    DivBounds(x, stride);
    MulGrows(q, stride);
    assert x == q * stride;
    assert PoolOutLen(ext, window, stride).value == q + 1;
  }

  /**
   * A window wider than the padded map is not rejected: the negative span
   * divides to a non-positive quotient, and the output length wraps.
   */
  lemma WideWindowWrapsOutput()
    ensures PoolOutLen(1, 3, 1) == Ok(0xFFFF)
    ensures PoolOutLen(2, 4, 2) == Ok(0)
  {
  }

  /** Padded and output sizes of a configuration. */
  datatype PoolGeometry = PoolGeometry(extW: U16, extH: U16, ofmapW: U16, ofmapH: U16)

  /** The pooling-mode geometry: the horizontal output size first, then the vertical one. */
  function PoolGeometryOf(f: PoolFmapCfg, c: PoolModeCfg): (r: Outcome<PoolGeometry>)
    ensures r.Fail? ==> r.code == -1
    ensures r == Undefined <==>
      || c.horizontalStride == 0
      || (PoolOutLen(ExtLen(f.ifmapW, f.padLeft, f.padRight), c.poolWindowW, c.horizontalStride).Ok?
          && c.verticalStride == 0)
  {
    var extW := ExtLen(f.ifmapW, f.padLeft, f.padRight);
    var extH := ExtLen(f.ifmapH, f.padTop, f.padBottom);
    match PoolOutLen(extW, c.poolWindowW, c.horizontalStride)
    case Undefined => Undefined
    case Fail(e) => Fail(e)
    case Ok(ow) =>
      match PoolOutLen(extH, c.poolWindowH, c.verticalStride)
      case Undefined => Undefined
      case Fail(e) => Fail(e)
      case Ok(oh) => Ok(PoolGeometry(extW, extH, ow, oh))
  }

  /**
   * An accepted pooling geometry: the padded sizes are the uint16_t sums,
   * each stride is nonzero and divides its span, and a window that fits
   * its padded side tiles it exactly.
   */
  lemma PoolGeometryTiles(f: PoolFmapCfg, c: PoolModeCfg)
    requires PoolGeometryOf(f, c).Ok?
    ensures var g := PoolGeometryOf(f, c).value;
      && g.extW == ExtLen(f.ifmapW, f.padLeft, f.padRight)
      && g.extH == ExtLen(f.ifmapH, f.padTop, f.padBottom)
      && c.horizontalStride > 0 && c.verticalStride > 0
      && (1 <= c.poolWindowW <= g.extW ==> g.ofmapW >= 1 && (g.ofmapW - 1) * c.horizontalStride + c.poolWindowW == g.extW)
      && (1 <= c.poolWindowH <= g.extH ==> g.ofmapH >= 1 && (g.ofmapH - 1) * c.verticalStride + c.poolWindowH == g.extH)
  {
    var g := PoolGeometryOf(f, c).value;
    if 1 <= c.poolWindowW <= g.extW {
      PoolOutLenTiles(g.extW, c.poolWindowW, c.horizontalStride);
    }
    if 1 <= c.poolWindowH <= g.extH {
      PoolOutLenTiles(g.extH, c.poolWindowH, c.verticalStride);
    }
  }

  /** The up-sampling geometry: each padded side times its copy count, stored in a uint16_t. */
  function UpsGeometryOf(f: PoolFmapCfg, c: UpsModeCfg): (g: PoolGeometry)
    ensures g.extW == ExtLen(f.ifmapW, f.padLeft, f.padRight) && g.extH == ExtLen(f.ifmapH, f.padTop, f.padBottom)
    ensures g.extW * c.upsampleHorizontalN < 0x1_0000 ==> g.ofmapW == g.extW * c.upsampleHorizontalN
    ensures g.extH * c.upsampleVerticalN < 0x1_0000 ==> g.ofmapH == g.extH * c.upsampleVerticalN
  {
    var extW := ExtLen(f.ifmapW, f.padLeft, f.padRight);
    var extH := ExtLen(f.ifmapH, f.padTop, f.padBottom);
    PoolGeometry(extW, extH, Mul16(extW, c.upsampleHorizontalN), Mul16(extH, c.upsampleVerticalN))
  }

  /** A uint16_t times a uint8_t, computed in int and stored in a uint16_t. */
  function Mul16(a: U16, b: U8): (r: U16)
    ensures a * b < 0x1_0000 ==> r == a * b
  {
    W16(a * b)
  }

  /**
   * The rows the intermediate-result buffer holds at once: its banks over
   * the banks one output row needs (the row width over the bank depth,
   * rounded up). Undefined when the bank depth is zero or the output row is
   * empty; there is no lower bound, so a buffer too small for one row
   * yields zero rows.
   */
  function PoolMidRows(p: PoolProp, ofmapW: U16): (r: Outcome<U16>)
    ensures !r.Fail?
    ensures r == Undefined <==> p.midResBufBankDepth == 0 || ofmapW == 0
  {
    if p.midResBufBankDepth == 0 then Undefined
    else
      var banks := CeilDiv(ofmapW, p.midResBufBankDepth);
      CeilDivZero(ofmapW, p.midResBufBankDepth);
      if banks == 0 then Undefined
      else Ok(Quot16(p.midResBufBankN, banks))
  }

  /**
   * The bufferable rows are the whole number of row-sized bank groups the
   * intermediate-result buffer holds.
   */
  lemma PoolMidRowsFit(p: PoolProp, ofmapW: U16)
    requires PoolMidRows(p, ofmapW).Ok?
    ensures var rows := PoolMidRows(p, ofmapW).value;
      var banks := CeilDiv(ofmapW, p.midResBufBankDepth);
      banks >= 1 && rows * banks <= p.midResBufBankN < (rows + 1) * banks
  {
    var banks := CeilDiv(ofmapW, p.midResBufBankDepth);
    CeilDivZero(ofmapW, p.midResBufBankDepth);
    QuotFacts(p.midResBufBankN, banks);
  }

  /** Rounding up leaves no pieces exactly for nothing. */
  lemma CeilDivZero(a: nat, b: nat)
    requires b > 0
    ensures CeilDiv(a, b) == 0 <==> a == 0
  {
    var r := CeilDiv(a, b);
    assert r * b >= a && r <= a;
    if r == 0 {
      assert r * b == 0;
    }
  }

  /** The quotient of a uint16_t by a positive divisor, which fits a uint16_t. */
  function Quot16(n: U16, b: nat): (q: U16)
    requires b > 0
    ensures q == n / b
  {
    QuotAtMost(n, b);
    n / b
  }

  lemma QuotAtMost(n: nat, b: nat)
    requires b > 0
    ensures n / b <= n
  {
    QuotFacts(n, b);
  }

  /** The floor quotient by a positive divisor: whole pieces, no larger than the dividend. */
  lemma QuotFacts(n: nat, b: nat)
    requires b > 0
    ensures n / b <= n
    ensures (n / b) * b <= n < (n / b + 1) * b
  {
    var q := n / b;
    DivBounds(n, b);
    MulGrows(q, b);
    assert q <= q * b <= n;
  }

  /**
   * The feature-map buffer rows: all physical banks times their depth, over
   * the surfaces per row, capped at the reported maximum.
   */
  function PoolFmbufRows(p: PoolProp, coln: PoolFmbufColn): (r: U16)
    ensures r <= p.maxFmbufRowN
    ensures r * coln.Surfaces() <= p.phyBufBankN * p.phyBufBankDepth
    ensures r < p.maxFmbufRowN ==> p.phyBufBankN * p.phyBufBankDepth < (r + 1) * coln.Surfaces()
  {
    ConvLayer.FmbufRows(p.phyBufBankN, p.phyBufBankDepth, coln, p.maxFmbufRowN)
  }

  /** A format check of either routine fails only for a format the device lacks. */
  predicate FmtSupported(p: PoolProp, f: PoolCalFmt)
  {
    && (f.Int8? ==> p.int8Supported)
    && (f.Int16? ==> p.int16Supported)
    && (f.Fp16? ==> p.fp16Supported)
  }

  /** The post multiply-add stage is requested only from a device that has one. */
  predicate PostMacAllowed(p: PoolProp, m: PostMacCfg)
  {
    m.usePostMac != 0 ==> p.postMacSupported
  }

  /** Any external padding, on any side, needs the external-padding capability. */
  predicate PaddingAllowed(p: PoolProp, f: PoolFmapCfg)
  {
    (f.padLeft != 0 || f.padRight != 0 || f.padTop != 0 || f.padBottom != 0) ==> p.extPaddingSupported
  }

  /** The pooling kind the mode names is supported. */
  predicate PoolKindSupported(p: PoolProp, mode: ProcMode)
  {
    && (mode.ModeAvg? ==> p.avgPoolSupported)
    && (mode.ModeMax? ==> p.maxPoolSupported)
  }

  /** cal_cfg3 to cal_cfg5, written with the post multiply-add stage in use. */
  datatype PostMacImage = PostMacImage(calCfg3: bv32, calCfg4: bv32, calCfg5: bv32)

  /** fmap_cfg0 to fmap_cfg6. */
  datatype FmapImage = FmapImage(
    fmapCfg0: bv32, fmapCfg1: bv32, fmapCfg2: bv32, fmapCfg3: bv32,
    fmapCfg4: bv32, fmapCfg5: bv32, fmapCfg6: bv32)

  /**
   * Every register word a successful configuration writes. With the post
   * multiply-add stage (postMac present) ctrl0 bit 9 is set and cal_cfg3 to
   * cal_cfg5 are written; without it ctrl0 bit 9 is cleared.
   */
  datatype PoolImage = PoolImage(
    calCfg0: bv32, calCfg1: bv32, calCfg2: bv32,
    postMac: Option<PostMacImage>,
    fmap: FmapImage,
    bufCfg0: bv32, bufCfg1: bv32)

  function PostMacImageOf(m: PostMacCfg): (r: Option<PostMacImage>)
    ensures r.Some? <==> m.usePostMac != 0
    ensures r.Some? ==> r.value.calCfg4 == m.paramA && r.value.calCfg5 == m.paramB
  {
    if m.usePostMac == 0 then None
    else Some(PostMacImage(Zext8(m.isAEq1) | (Zext8(m.isBEq0) << 1) | (Zext8(m.fixedPointQuatAccrc) << 8),
                           m.paramA, m.paramB))
  }

  /**
   * The feature-map words. Each size field holds its value minus one,
   * computed in int and converted to uint32_t, so a zero size writes all
   * ones; the output height field starts at bit 15.
   */
  function FmapImageOf(f: PoolFmapCfg, g: PoolGeometry): FmapImage
  {
    FmapImage(
      f.ifmapBaseaddr,
      f.ofmapBaseaddr,
      (Zext16(f.ifmapW) - 1) | ((Zext16(f.ifmapH) - 1) << 16),
      Word(W32(f.ifmapW * f.ifmapH)) - 1,
      (Zext16(f.ifmapC) - 1) | (Zext8(f.padLeft) << 16) | (Zext8(f.padTop) << 24),
      (Zext16(g.extW) - 1) | ((Zext16(g.extH) - 1) << 16),
      (Zext16(g.ofmapW) - 1) | ((Zext16(g.ofmapH) - 1) << 15) | (f.ofmapDataType.Code() << 30))
  }

  /** buf_cfg0: the row-length code and, in the upper half, the row count itself. */
  function BufCfg0Word(coln: PoolFmbufColn, rows: U16): bv32
  {
    coln.Code() | (Zext16(rows) << 16)
  }

  /** buf_cfg1: the intermediate-result rows minus one, computed in int and converted to uint32_t. */
  function BufCfg1Word(midRows: U16): bv32
  {
    Zext16(midRows) - 1
  }

  /** cal_cfg0 in pooling mode: mode, format, and both strides minus one. */
  function PoolCalCfg0(mode: ProcMode, c: PoolModeCfg): bv32
  {
    mode.Code() | (c.calFmt.Code() << 4) | ((Zext8(c.horizontalStride) - 1) << 8) | ((Zext8(c.verticalStride) - 1) << 16)
  }

  /** cal_cfg1 in pooling mode: the window width and height, each minus one. */
  function PoolCalCfg1(c: PoolModeCfg): bv32
  {
    (Zext8(c.poolWindowW) - 1) | ((Zext8(c.poolWindowH) - 1) << 8)
  }

  /** cal_cfg0 in up-sampling mode: the up-sampling mode code and the format. */
  function UpsCalCfg0(c: UpsModeCfg): bv32
  {
    ModeUpsample.Code() | (c.calFmt.Code() << 4)
  }

  /** cal_cfg1 in up-sampling mode: both copy counts minus one. */
  function UpsCalCfg1(c: UpsModeCfg): bv32
  {
    (Zext8(c.upsampleHorizontalN) - 1) | ((Zext8(c.upsampleVerticalN) - 1) << 8)
  }

  /** cal_cfg2 in up-sampling mode: the constant-padding flag and the constant. */
  function UpsCalCfg2(c: UpsModeCfg): bv32
  {
    Zext8(c.nonZeroConstPaddingMode) | (Zext16(c.constToFill) << 16)
  }

  /**
   * The checks of cfg_in_pool_mode, in its order, and the quantities they
   * derive (the geometry and the intermediate-result rows): -1 for a stride
   * that does not divide its span, a stride above 8, a left or top padding
   * above 7, or the up-sampling mode; Undefined where it divides by zero (a
   * zero stride, bank depth or output width); -2 for what the device lacks.
   */
  function PoolLayout(p: PoolProp, mode: ProcMode, f: PoolFmapCfg, c: PoolModeCfg): (r: Outcome<(PoolGeometry, U16)>)
    ensures r.Fail? ==> r.code == -1 || r.code == -2
  {
    match PoolGeometryOf(f, c)
    case Undefined => Undefined
    case Fail(e) => Fail(e)
    case Ok(g) =>
      if c.horizontalStride > 8 || c.verticalStride > 8 then Fail(-1)
      else if f.padLeft > 7 || f.padTop > 7 then Fail(-1)
      else
        var mid := PoolMidRows(p, g.ofmapW);
        if mid == Undefined then Undefined
        else if mode.ModeUpsample? then Fail(-1)
        else if !(PoolKindSupported(p, mode) && FmtSupported(p, c.calFmt)
                  && PostMacAllowed(p, c.postMac) && PaddingAllowed(p, f)) then Fail(-2)
        else Ok((g, mid.value))
  }

  /** The words cfg_in_pool_mode writes once its checks pass; cal_cfg2 is always zero. */
  function PoolImageOf(p: PoolProp, mode: ProcMode, f: PoolFmapCfg, coln: PoolFmbufColn, c: PoolModeCfg,
                       g: PoolGeometry, midRows: U16): (img: PoolImage)
    ensures img.calCfg2 == 0
  {
    PoolImage(PoolCalCfg0(mode, c), PoolCalCfg1(c), 0, PostMacImageOf(c.postMac),
              FmapImageOf(f, g), BufCfg0Word(coln, PoolFmbufRows(p, coln)), BufCfg1Word(midRows))
  }

  /** cfg_in_pool_mode: the checks, then the words to write. */
  function PoolCompile(p: PoolProp, mode: ProcMode, f: PoolFmapCfg, coln: PoolFmbufColn, c: PoolModeCfg)
    : (r: Outcome<PoolImage>)
    ensures r.Fail? ==> r.code == -1 || r.code == -2
    ensures r.Ok? ==> r.value.postMac == PostMacImageOf(c.postMac)
  {
    match PoolLayout(p, mode, f, c)
    case Undefined => Undefined
    case Fail(e) => Fail(e)
    case Ok(l) => Ok(PoolImageOf(p, mode, f, coln, c, l.0, l.1))
  }

  /**
   * The checks of cfg_in_up_sample_mode and the quantities they derive: -1
   * for a left or top padding above 7; Undefined where it divides by zero
   * (a zero bank depth or output width, the latter also for a zero copy
   * count or a width that wraps to zero); -2 for what the device lacks,
   * constant padding included.
   */
  function UpsLayout(p: PoolProp, f: PoolFmapCfg, c: UpsModeCfg): (r: Outcome<(PoolGeometry, U16)>)
    ensures r.Fail? ==> r.code == -1 || r.code == -2
  {
    var g := UpsGeometryOf(f, c);
    if f.padLeft > 7 || f.padTop > 7 then Fail(-1)
    else
      var mid := PoolMidRows(p, g.ofmapW);
      if mid == Undefined then Undefined
      else if !(p.upSampleSupported && FmtSupported(p, c.calFmt) && PostMacAllowed(p, c.postMac)
                && PaddingAllowed(p, f) && (c.nonZeroConstPaddingMode != 0 ==> p.nonZeroConstPaddingSupported)) then Fail(-2)
      else Ok((g, mid.value))
  }

  /** The words cfg_in_up_sample_mode writes once its checks pass. */
  function UpsImageOf(p: PoolProp, f: PoolFmapCfg, coln: PoolFmbufColn, c: UpsModeCfg, g: PoolGeometry, midRows: U16)
    : (img: PoolImage)
    ensures img.bufCfg1 == BufCfg1Word(midRows)
  {
    PoolImage(UpsCalCfg0(c), UpsCalCfg1(c), UpsCalCfg2(c), PostMacImageOf(c.postMac),
              FmapImageOf(f, g), BufCfg0Word(coln, PoolFmbufRows(p, coln)), BufCfg1Word(midRows))
  }

  /** cfg_in_up_sample_mode: the checks, then the words to write. */
  function UpsCompile(p: PoolProp, f: PoolFmapCfg, coln: PoolFmbufColn, c: UpsModeCfg): (r: Outcome<PoolImage>)
    ensures r.Fail? ==> r.code == -1 || r.code == -2
    ensures r.Ok? ==> r.value.postMac == PostMacImageOf(c.postMac)
  {
    match UpsLayout(p, f, c)
    case Undefined => Undefined
    case Fail(e) => Fail(e)
    case Ok(l) => Ok(UpsImageOf(p, f, coln, c, l.0, l.1))
  }

  /**
   * When pooling mode accepts: the geometry is accepted, both strides lie
   * in 1 to 8, the left and top paddings are at most 7 (the right and
   * bottom ones are not checked), no division by zero occurs, the mode is a
   * pooling mode, and the device supports everything requested; the words
   * are then those of the accepted geometry and intermediate-result rows.
   * It rejects with -2 exactly when everything but the device support holds.
   */
  lemma PoolCompileAccepts(p: PoolProp, mode: ProcMode, f: PoolFmapCfg, coln: PoolFmbufColn, c: PoolModeCfg)
    ensures PoolCompile(p, mode, f, coln, c).Ok? <==>
      && PoolGeometryOf(f, c).Ok?
      && 1 <= c.horizontalStride <= 8 && 1 <= c.verticalStride <= 8
      && f.padLeft <= 7 && f.padTop <= 7
      && PoolMidRows(p, PoolGeometryOf(f, c).value.ofmapW).Ok?
      && !mode.ModeUpsample?
      && PoolKindSupported(p, mode) && FmtSupported(p, c.calFmt) && PostMacAllowed(p, c.postMac) && PaddingAllowed(p, f)
    ensures PoolCompile(p, mode, f, coln, c).Ok? ==>
      var g := PoolGeometryOf(f, c).value;
      PoolCompile(p, mode, f, coln, c).value == PoolImageOf(p, mode, f, coln, c, g, PoolMidRows(p, g.ofmapW).value)
    ensures PoolCompile(p, mode, f, coln, c) == Fail(-2) <==>
      && PoolGeometryOf(f, c).Ok?
      && c.horizontalStride <= 8 && c.verticalStride <= 8
      && f.padLeft <= 7 && f.padTop <= 7
      && PoolMidRows(p, PoolGeometryOf(f, c).value.ofmapW).Ok?
      && !mode.ModeUpsample?
      && !(PoolKindSupported(p, mode) && FmtSupported(p, c.calFmt) && PostMacAllowed(p, c.postMac) && PaddingAllowed(p, f))
  {
    if PoolGeometryOf(f, c).Ok? {
      PoolGeometryTiles(f, c);
    }
  }

  /** Pooling mode never accepts the up-sampling mode, and reports it as -1 rather than -2. */
  lemma PoolModeRejectsUpsample(p: PoolProp, f: PoolFmapCfg, coln: PoolFmbufColn, c: PoolModeCfg)
    ensures PoolCompile(p, ModeUpsample, f, coln, c) == Fail(-1) || PoolCompile(p, ModeUpsample, f, coln, c) == Undefined
  {
  }

  /**
   * A zero stride is not rejected: the remainder by it is computed before
   * the stride range check, so the routine has undefined behaviour.
   */
  lemma PoolZeroStrideUndefined(p: PoolProp, mode: ProcMode, f: PoolFmapCfg, coln: PoolFmbufColn, c: PoolModeCfg)
    requires c.horizontalStride == 0
    ensures PoolCompile(p, mode, f, coln, c) == Undefined
  {
  }

  /**
   * Pooling mode ignores the constant-padding fields: it neither checks the
   * device's constant-padding support nor writes them, cal_cfg2 being
   * always zero.
   */
  lemma PoolModeIgnoresConstPadding(p: PoolProp, mode: ProcMode, f: PoolFmapCfg, coln: PoolFmbufColn, c: PoolModeCfg,
                                    padMode: U8, constant: U16)
    ensures PoolCompile(p, mode, f, coln, c.(nonZeroConstPaddingMode := padMode, constToFill := constant))
         == PoolCompile(p, mode, f, coln, c)
    ensures PoolCompile(p, mode, f, coln, c).Ok? ==> PoolCompile(p, mode, f, coln, c).value.calCfg2 == 0
  {
    var c' := c.(nonZeroConstPaddingMode := padMode, constToFill := constant);
    assert PoolGeometryOf(f, c') == PoolGeometryOf(f, c);
    assert PoolLayout(p, mode, f, c') == PoolLayout(p, mode, f, c);
    PoolImageSameFields(p, mode, f, coln, c, c');
  }

  /** The pooling-mode words do not depend on the constant-padding fields. */
  lemma PoolImageSameFields(p: PoolProp, mode: ProcMode, f: PoolFmapCfg, coln: PoolFmbufColn, c: PoolModeCfg, d: PoolModeCfg)
    requires d.calFmt == c.calFmt && d.postMac == c.postMac
    requires d.horizontalStride == c.horizontalStride && d.verticalStride == c.verticalStride
    requires d.poolWindowW == c.poolWindowW && d.poolWindowH == c.poolWindowH
    ensures forall g, m :: PoolImageOf(p, mode, f, coln, d, g, m) == PoolImageOf(p, mode, f, coln, c, g, m)
  {
    assert PoolCalCfg0(mode, d) == PoolCalCfg0(mode, c);
    assert PoolCalCfg1(d) == PoolCalCfg1(c);
  }

  /** A stride of 1 to 8 fits a 3-bit field once one is subtracted. */
  lemma StrideFits(x: U8)
    requires 1 <= x <= 8
    ensures Zext8(x) - 1 <= 7
  {
    if x <= 4 {
      if x == 1 {} else if x == 2 {} else if x == 3 {} else {}
    } else {
      if x == 5 {} else if x == 6 {} else if x == 7 {} else {}
    }
  }

  /** A 16-bit value widened to a word keeps the upper half clear. */
  lemma Zext16Fits(x: U16)
    ensures Zext16(x) <= 0xFFFF
  {
  }

  /** An 8-bit value widened to a word fits the low byte. */
  lemma Zext8Fits(x: U8)
    ensures Zext8(x) <= 0xFF
  {
  }

  /** Four fields of 4, 4, 8 and 16 bits packed from bit 0 upwards read back as written. */
  lemma CalCfg0FieldsDecode(m: bv32, f: bv32, h: bv32, v: bv32)
    requires m <= 0xF && f <= 0xF && h <= 0xFF && v <= 0xFFFF
    ensures var w := m | (f << 4) | (h << 8) | (v << 16);
      w & 0xF == m && (w >> 4) & 0xF == f && (w >> 8) & 0xFF == h && w >> 16 == v
  {
  }

  /** A low byte and a 16-bit field in the upper half read back as written. */
  lemma LowByteHighHalfDecode(lo: bv32, hi: bv32)
    requires lo <= 0xFF && hi <= 0xFFFF
    ensures (lo | (hi << 16)) & 0xFF == lo
    ensures (lo | (hi << 16)) >> 16 == hi
  {
  }

  /**
   * The cal_cfg0 of pooling mode, for strides the routine accepts, decodes
   * back to the mode, the format and both strides minus one.
   */
  lemma PoolCalCfg0Decodes(mode: ProcMode, c: PoolModeCfg)
    requires 1 <= c.horizontalStride <= 8 && 1 <= c.verticalStride <= 8
    ensures PoolCalCfg0(mode, c) & 0xF == mode.Code()
    ensures (PoolCalCfg0(mode, c) >> 4) & 0xF == c.calFmt.Code()
    ensures (PoolCalCfg0(mode, c) >> 8) & 0xFF == Zext8(c.horizontalStride) - 1
    ensures PoolCalCfg0(mode, c) >> 16 == Zext8(c.verticalStride) - 1
  {
    StrideFits(c.horizontalStride);
    StrideFits(c.verticalStride);
    CalCfg0FieldsDecode(mode.Code(), c.calFmt.Code(), Zext8(c.horizontalStride) - 1, Zext8(c.verticalStride) - 1);
  }

  /**
   * buf_cfg0 decodes back to the row-length code and, in its upper half,
   * the feature-map buffer row count itself (not the count minus one).
   */
  lemma BufCfg0Decodes(coln: PoolFmbufColn, rows: U16)
    ensures BufCfg0Word(coln, rows) & 0xF == coln.Code()
    ensures BufCfg0Word(coln, rows) >> 16 == Zext16(rows)
  {
    Zext16Fits(rows);
    CalCfg0FieldsDecode(coln.Code(), 0, 0, Zext16(rows));
  }

  /**
   * When one output row needs more intermediate-result banks than the
   * buffer has, neither routine rejects the configuration: zero rows are
   * derived and buf_cfg1 receives all ones.
   */
  lemma ShortMidBufferWrapsRows(p: PoolProp, ofmapW: U16)
    requires PoolMidRows(p, ofmapW).Ok?
    requires p.midResBufBankN < CeilDiv(ofmapW, p.midResBufBankDepth)
    ensures PoolMidRows(p, ofmapW).value == 0
    ensures BufCfg1Word(PoolMidRows(p, ofmapW).value) == 0xFFFF_FFFF
  {
    PoolMidRowsFit(p, ofmapW);
    ProductAtLeastFactor(PoolMidRows(p, ofmapW).value, CeilDiv(ofmapW, p.midResBufBankDepth));
  }

  lemma ProductAtLeastFactor(r: nat, b: nat)
    ensures r >= 1 ==> r * b >= b
  {
    if r >= 1 && b >= 1 {
      MulGrows(b, r);
    }
  }

  /**
   * When up-sampling mode accepts: the left and top paddings are at most 7,
   * no division by zero occurs, and the device supports up-sampling, the
   * format, the post multiply-add stage and the paddings if requested, and
   * constant padding if requested; the words are then those of the
   * up-sampled geometry and its intermediate-result rows.
   */
  lemma UpsCompileAccepts(p: PoolProp, f: PoolFmapCfg, coln: PoolFmbufColn, c: UpsModeCfg)
    ensures UpsCompile(p, f, coln, c).Ok? <==>
      && f.padLeft <= 7 && f.padTop <= 7
      && p.midResBufBankDepth > 0 && UpsGeometryOf(f, c).ofmapW > 0
      && p.upSampleSupported && FmtSupported(p, c.calFmt) && PostMacAllowed(p, c.postMac) && PaddingAllowed(p, f)
      && (c.nonZeroConstPaddingMode != 0 ==> p.nonZeroConstPaddingSupported)
    ensures UpsCompile(p, f, coln, c).Ok? ==>
      var g := UpsGeometryOf(f, c);
      UpsCompile(p, f, coln, c).value == UpsImageOf(p, f, coln, c, g, PoolMidRows(p, g.ofmapW).value)
    ensures UpsCompile(p, f, coln, c) == Undefined <==>
      f.padLeft <= 7 && f.padTop <= 7 && (p.midResBufBankDepth == 0 || UpsGeometryOf(f, c).ofmapW == 0)
  {
  }

  /**
   * A zero copy count, or a padded width whose copies fill exactly 2^16,
   * leaves an output width of zero, and up-sampling mode then divides by
   * zero instead of rejecting the configuration.
   */
  lemma UpsEmptyWidthUndefined(p: PoolProp, f: PoolFmapCfg, coln: PoolFmbufColn, c: UpsModeCfg)
    requires f.padLeft <= 7 && f.padTop <= 7
    requires c.upsampleHorizontalN == 0 || ExtLen(f.ifmapW, f.padLeft, f.padRight) * c.upsampleHorizontalN == 0x1_0000
    ensures UpsGeometryOf(f, c).ofmapW == 0
    ensures UpsCompile(p, f, coln, c) == Undefined
  {
    var extW := ExtLen(f.ifmapW, f.padLeft, f.padRight);
    assert UpsGeometryOf(f, c).ofmapW == W16(extW * c.upsampleHorizontalN);
    assert W16(0) == 0 && W16(0x1_0000) == 0;
    UpsCompileAccepts(p, f, coln, c);
  }

  /** The cal_cfg0 of up-sampling mode decodes to the up-sampling code and the format. */
  lemma UpsCalCfg0Decodes(c: UpsModeCfg)
    ensures UpsCalCfg0(c) & 0xF == ModeUpsample.Code()
    ensures (UpsCalCfg0(c) >> 4) & 0xF == c.calFmt.Code()
  {
    CalCfg0FieldsDecode(ModeUpsample.Code(), c.calFmt.Code(), 0, 0);
  }

  /** The cal_cfg2 of up-sampling mode decodes to the constant-padding flag and the constant. */
  lemma UpsCalCfg2Decodes(c: UpsModeCfg)
    ensures UpsCalCfg2(c) & 0xFF == Zext8(c.nonZeroConstPaddingMode)
    ensures UpsCalCfg2(c) >> 16 == Zext16(c.constToFill)
  {
    Zext8Fits(c.nonZeroConstPaddingMode);
    Zext16Fits(c.constToFill);
    LowByteHighHalfDecode(Zext8(c.nonZeroConstPaddingMode), Zext16(c.constToFill));
  }
}
