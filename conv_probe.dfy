/**
 * Capability discovery shared by both convolution driver revisions. The
 * limits are information-register fields plus one, truncated to the width
 * of the property; each capability is probed by writing a pattern to a
 * configuration field and reading it back.
 */
module ConvProbe {
  import opened Bits
  import opened Registers
  import opened ConvTypes

  /** Field plus one, stored in a uint8_t. */
  function Limit8(field: bv32): (r: nat)
    requires field < 0x100
    ensures r == if field == 0xFF then 0 else field as int + 1
  {
    W8(field as int + 1)
  }

  /** Field plus one, stored in a uint16_t. */
  function Limit16(field: bv32): (r: nat)
    requires field < 0x1_0000
    ensures r == if field == 0xFFFF then 0 else field as int + 1
  {
    W16(field as int + 1)
  }

  /**
   * The capability record from the ten probe results and the limits of
   * info0 to info3.
   */
  function CapsOf(int8: bool, int16: bool, fp16: bool, largeV: bool, largeH: bool, groupConv: bool,
                  extPadding: bool, innerPadding: bool, dilation: bool, pm: bool,
                  info0: bv32, info1: bv32, info2: bv32, info3: bv32): (caps: ConvCaps)
    ensures caps.InRange()
  {
    ConvCaps(
      int8, int16, fp16, largeV, largeH, groupConv, extPadding, innerPadding, dilation, pm,
      atomicK := Limit8(info0 & 0xFF),
      atomicC := Limit8((info0 >> 8) & 0xFF),
      maxCalRoundN := Limit8((info0 >> 16) & 0xFF),
      mm2sStreamDataWidth := Limit16(info1 & 0xFF),
      s2mmStreamDataWidth := Limit16((info1 >> 8) & 0xFF),
      phyBufBankN := Limit16((info1 >> 16) & 0xFFFF),
      phyBufBankDepth := Limit16(info2 & 0xFFFF),
      maxFmbufRowN := Limit16((info2 >> 16) & 0xFFFF),
      midResBufBankN := Limit8(info3 & 0xFF),
      midResBufBankDepth := Limit16((info3 >> 16) & 0xFFFF))
  }

  /**
   * The shared capability record: limits from info0 to info3, and the
   * readback probes of the calculation, group, feature-map and kernel
   * configuration registers and of the performance-monitor enable bit
   * `pmBit` of ctrl0 (whose value before the probe is `ctrl0`).
   */
  function ProbedCaps(info0: bv32, info1: bv32, info2: bv32, info3: bv32, ctrl0: bv32, pmBit: bv32,
                      writable: ConvReg -> bv32, tied: ConvReg -> bv32): (caps: ConvCaps)
    ensures caps.InRange()
  {
    CapsOf(
      int8 := FieldIs(Readback(writable(CalCfg), tied(CalCfg), Int8.Code()), 0, 7, Int8.Code()),
      int16 := FieldIs(Readback(writable(CalCfg), tied(CalCfg), Int16.Code()), 0, 7, Int16.Code()),
      fp16 := FieldIs(Readback(writable(CalCfg), tied(CalCfg), Fp16.Code()), 0, 7, Fp16.Code()),
      largeV := FieldIs(Readback(writable(CalCfg), tied(CalCfg), 7 << 8), 8, 7, 7),
      largeH := FieldIs(Readback(writable(CalCfg), tied(CalCfg), 7 << 11), 11, 7, 7),
      groupConv := BitSet(Readback(writable(GrpConv0), tied(GrpConv0), 1), 1),
      extPadding := FieldIs(Readback(writable(FmapCfg4), tied(FmapCfg4), 7), 0, 7, 7),
      innerPadding := FieldIs(Readback(writable(FmapCfg4), tied(FmapCfg4), 7 << 6), 6, 7, 7),
      dilation := FieldIs(Readback(writable(KrnCfg1), tied(KrnCfg1), 15 << 4), 4, 15, 15),
      pm := BitSet(Readback(writable(Ctrl0), tied(Ctrl0), ctrl0 | pmBit), pmBit),
      info0 := info0, info1 := info1, info2 := info2, info3 := info3)
  }

  /**
   * What each geometry probe reports: a field counts as supported exactly
   * when every one of its bits either latches the written one or is tied
   * high.
   */
  lemma GeometryProbesMeaning(info0: bv32, info1: bv32, info2: bv32, info3: bv32, ctrl0: bv32, pmBit: bv32,
                              writable: ConvReg -> bv32, tied: ConvReg -> bv32)
    requires pmBit == 2 || pmBit == 4
    ensures var c := ProbedCaps(info0, info1, info2, info3, ctrl0, pmBit, writable, tied);
      && (c.largeVStrideSupported <==> (writable(CalCfg) | tied(CalCfg)) & 0x700 == 0x700)
      && (c.largeHStrideSupported <==> (writable(CalCfg) | tied(CalCfg)) & 0x3800 == 0x3800)
      && (c.groupConvSupported <==> (writable(GrpConv0) | tied(GrpConv0)) & 1 == 1)
      && (c.extPaddingSupported <==> (writable(FmapCfg4) | tied(FmapCfg4)) & 7 == 7)
      && (c.innerPaddingSupported <==> (writable(FmapCfg4) | tied(FmapCfg4)) & 0x1C0 == 0x1C0)
      && (c.kernalDilationSupported <==> (writable(KrnCfg1) | tied(KrnCfg1)) & 0xF0 == 0xF0)
      && (c.performanceMonitorSupported <==> (writable(Ctrl0) | tied(Ctrl0)) & pmBit == pmBit)
  {
  }

  /**
   * What the format probes report: a format counts as supported exactly
   * when its code survives the readback of the 3-bit format field, i.e. the
   * code's one bits latch or are tied high and no other bit of the field is
   * tied high.
   */
  lemma FormatProbesMeaning(info0: bv32, info1: bv32, info2: bv32, info3: bv32, ctrl0: bv32, pmBit: bv32,
                            writable: ConvReg -> bv32, tied: ConvReg -> bv32)
    ensures var c := ProbedCaps(info0, info1, info2, info3, ctrl0, pmBit, writable, tied);
      var stuck := tied(CalCfg) & !writable(CalCfg);
      && (c.int8Supported <==> stuck & 7 == 0)
      && (c.int16Supported <==> (writable(CalCfg) | tied(CalCfg)) & 1 == 1 && stuck & 6 == 0)
      && (c.fp16Supported <==> (writable(CalCfg) | tied(CalCfg)) & 2 == 2 && stuck & 5 == 0)
  {
  }

  /**
   * The region after the capability probes of init: each probed register
   * holds the readback of its last probe pattern, and ctrl0 the readback
   * of its own value restored after the performance-monitor probe.
   */
  function CapsProbedRegs(regs: map<ConvReg, bv32>, rf: RegFile<ConvReg>): (m: map<ConvReg, bv32>)
    requires forall r :: r in regs
    ensures forall r :: r in m
    ensures m[Ctrl0] == rf.After(Ctrl0, regs[Ctrl0])
    ensures m[Info5] == regs[Info5]
  {
    regs[CalCfg := rf.After(CalCfg, 7 << 11)]
        [GrpConv0 := rf.After(GrpConv0, 1)]
        [FmapCfg4 := rf.After(FmapCfg4, 7 << 6)]
        [KrnCfg1 := rf.After(KrnCfg1, 15 << 4)]
        [Ctrl0 := rf.After(Ctrl0, regs[Ctrl0])]
  }

  /** The capability probes store to cal_cfg, grp_conv0, fmap_cfg4, krn_cfg1 and ctrl0 only. */
  lemma CapsProbesFrame(regs: map<ConvReg, bv32>, rf: RegFile<ConvReg>)
    requires forall r :: r in regs
    ensures var m := CapsProbedRegs(regs, rf);
      && m[CalCfg] == rf.After(CalCfg, 7 << 11) && m[GrpConv0] == rf.After(GrpConv0, 1)
      && m[FmapCfg4] == rf.After(FmapCfg4, 7 << 6) && m[KrnCfg1] == rf.After(KrnCfg1, 15 << 4)
    ensures forall r: ConvReg ::
              !(r.CalCfg? || r.GrpConv0? || r.FmapCfg4? || r.KrnCfg1? || r.Ctrl0?) ==> CapsProbedRegs(regs, rf)[r] == regs[r]
  {
  }

  /**
   * The probes of the shared configuration registers and of ctrl0,
   * combined with the limits of info0 to info3 as read before probing.
   */
  method ProbeCaps(rf: RegFile<ConvReg>, info0: bv32, info1: bv32, info2: bv32, info3: bv32, pmBit: bv32) returns (caps: ConvCaps)
    requires rf.Valid()
    modifies rf
    ensures rf.Valid()
    ensures caps == ProbedCaps(info0, info1, info2, info3,
                               old(rf.regs[Ctrl0]), pmBit, rf.writable, rf.tied)
    ensures rf.regs == CapsProbedRegs(old(rf.regs), rf)
  {
    var int8, int16, fp16, largeV, largeH := ProbeCalCfg(rf);
    var groupConv, extPadding, innerPadding, dilation := ProbeGeometry(rf);
    var pm := ProbePerfMon(rf, pmBit);
    caps := CapsOf(int8, int16, fp16, largeV, largeH, groupConv, extPadding, innerPadding, dilation, pm,
                   info0, info1, info2, info3);
    ProbeResultsMakeCaps(rf, int8, int16, fp16, largeV, largeH, groupConv, extPadding, innerPadding, dilation, pm,
                         info0, info1, info2, info3, old(rf.regs[Ctrl0]), pmBit);
  }

  /** The format and stride probes of cal_cfg. */
  method ProbeCalCfg(rf: RegFile<ConvReg>) returns (int8: bool, int16: bool, fp16: bool, largeV: bool, largeH: bool)
    requires rf.Valid()
    modifies rf
    ensures rf.Valid()
    ensures rf.regs == old(rf.regs)[CalCfg := rf.After(CalCfg, 7 << 11)]
    ensures int8 == FieldIs(rf.After(CalCfg, Int8.Code()), 0, 7, Int8.Code())
    ensures int16 == FieldIs(rf.After(CalCfg, Int16.Code()), 0, 7, Int16.Code())
    ensures fp16 == FieldIs(rf.After(CalCfg, Fp16.Code()), 0, 7, Fp16.Code())
    ensures largeV == FieldIs(rf.After(CalCfg, 7 << 8), 8, 7, 7)
    ensures largeH == FieldIs(rf.After(CalCfg, 7 << 11), 11, 7, 7)
  {
    var v: bv32;
    ghost var m := old(rf.regs);
    rf.Store(CalCfg, Int8.Code());
    v := rf.Load(CalCfg);
    int8 := FieldIs(v, 0, 7, Int8.Code());
    rf.Store(CalCfg, Int16.Code());
    StoreTwice(m, CalCfg, rf.After(CalCfg, Int8.Code()), rf.After(CalCfg, Int16.Code()));
    v := rf.Load(CalCfg);
    int16 := FieldIs(v, 0, 7, Int16.Code());
    rf.Store(CalCfg, Fp16.Code());
    StoreTwice(m, CalCfg, rf.After(CalCfg, Int16.Code()), rf.After(CalCfg, Fp16.Code()));
    v := rf.Load(CalCfg);
    fp16 := FieldIs(v, 0, 7, Fp16.Code());
    rf.Store(CalCfg, 7 << 8);
    StoreTwice(m, CalCfg, rf.After(CalCfg, Fp16.Code()), rf.After(CalCfg, 7 << 8));
    v := rf.Load(CalCfg);
    largeV := FieldIs(v, 8, 7, 7);
    rf.Store(CalCfg, 7 << 11);
    StoreTwice(m, CalCfg, rf.After(CalCfg, 7 << 8), rf.After(CalCfg, 7 << 11));
    v := rf.Load(CalCfg);
    largeH := FieldIs(v, 11, 7, 7);
  }

  /** The group-convolution, padding and dilation probes. */
  method ProbeGeometry(rf: RegFile<ConvReg>) returns (groupConv: bool, extPadding: bool, innerPadding: bool, dilation: bool)
    requires rf.Valid()
    modifies rf
    ensures rf.Valid()
    ensures rf.regs == old(rf.regs)[GrpConv0 := rf.After(GrpConv0, 1)][FmapCfg4 := rf.After(FmapCfg4, 7 << 6)]
                                   [KrnCfg1 := rf.After(KrnCfg1, 15 << 4)]
    ensures groupConv == BitSet(rf.After(GrpConv0, 1), 1)
    ensures extPadding == FieldIs(rf.After(FmapCfg4, 7), 0, 7, 7)
    ensures innerPadding == FieldIs(rf.After(FmapCfg4, 7 << 6), 6, 7, 7)
    ensures dilation == FieldIs(rf.After(KrnCfg1, 15 << 4), 4, 15, 15)
  {
    var v: bv32;
    rf.Store(GrpConv0, 1);
    v := rf.Load(GrpConv0);
    groupConv := BitSet(v, 1);
    ghost var m := rf.regs;
    rf.Store(FmapCfg4, 7);
    v := rf.Load(FmapCfg4);
    extPadding := FieldIs(v, 0, 7, 7);
    rf.Store(FmapCfg4, 7 << 6);
    StoreTwice(m, FmapCfg4, rf.After(FmapCfg4, 7), rf.After(FmapCfg4, 7 << 6));
    v := rf.Load(FmapCfg4);
    innerPadding := FieldIs(v, 6, 7, 7);
    rf.Store(KrnCfg1, 15 << 4);
    v := rf.Load(KrnCfg1);
    dilation := FieldIs(v, 4, 15, 15);
  }

  /** The performance-monitor probe: set the bit, read it back, store the earlier ctrl0 again. */
  method ProbePerfMon(rf: RegFile<ConvReg>, pmBit: bv32) returns (pm: bool)
    requires rf.Valid()
    modifies rf
    ensures rf.Valid()
    ensures rf.regs == old(rf.regs)[Ctrl0 := rf.After(Ctrl0, old(rf.regs[Ctrl0]))]
    ensures pm == BitSet(rf.After(Ctrl0, old(rf.regs[Ctrl0]) | pmBit), pmBit)
  {
    ghost var m0 := rf.regs;
    var pre := rf.Load(Ctrl0);
    var probe := pre | pmBit;
    rf.Store(Ctrl0, probe);
    var v := rf.Load(Ctrl0);
    pm := BitSet(v, pmBit);
    rf.Store(Ctrl0, pre);
    StoreTwice(m0, Ctrl0, rf.After(Ctrl0, probe), rf.After(Ctrl0, pre));
  }

  /** Probe results as the register file reports them make up the probed capability record. */
  lemma ProbeResultsMakeCaps(rf: RegFile<ConvReg>, int8: bool, int16: bool, fp16: bool, largeV: bool, largeH: bool,
                             groupConv: bool, extPadding: bool, innerPadding: bool, dilation: bool, pm: bool,
                             info0: bv32, info1: bv32, info2: bv32, info3: bv32, ctrl0: bv32, pmBit: bv32)
    requires int8 == FieldIs(rf.After(CalCfg, Int8.Code()), 0, 7, Int8.Code())
    requires int16 == FieldIs(rf.After(CalCfg, Int16.Code()), 0, 7, Int16.Code())
    requires fp16 == FieldIs(rf.After(CalCfg, Fp16.Code()), 0, 7, Fp16.Code())
    requires largeV == FieldIs(rf.After(CalCfg, 7 << 8), 8, 7, 7)
    requires largeH == FieldIs(rf.After(CalCfg, 7 << 11), 11, 7, 7)
    requires groupConv == BitSet(rf.After(GrpConv0, 1), 1)
    requires extPadding == FieldIs(rf.After(FmapCfg4, 7), 0, 7, 7)
    requires innerPadding == FieldIs(rf.After(FmapCfg4, 7 << 6), 6, 7, 7)
    requires dilation == FieldIs(rf.After(KrnCfg1, 15 << 4), 4, 15, 15)
    requires pm == BitSet(rf.After(Ctrl0, ctrl0 | pmBit), pmBit)
    ensures CapsOf(int8, int16, fp16, largeV, largeH, groupConv, extPadding, innerPadding, dilation, pm,
                   info0, info1, info2, info3)
         == ProbedCaps(info0, info1, info2, info3, ctrl0, pmBit, rf.writable, rf.tied)
  {
  }
}
