/**
 * The generic pooling accelerator driver as a handler object over its
 * register region: initialisation (identity check, limits and capability
 * probes), the control bits of ctrl0, start and the busy test, the two
 * configuration modes, and the command and performance counters.
 */
module Pool {
  import opened Bits
  import opened Registers
  import opened Ident
  import opened PoolTypes
  import opened PoolPlan
  import ConvTypes

  /** The ctrl0 bits: start (two bits), calculation subsystem, post multiply-add stage, performance monitor. */
  const CTRL_START: bv32 := 3
  const CTRL_CAL_SUB_SYS: bv32 := 0x100
  const CTRL_POST_MAC: bv32 := 0x200
  const CTRL_PM: bv32 := 0x400

  /** The pattern the external-padding probe writes to fmap_cfg4: a left and a top padding of one. */
  const EXT_PADDING_PROBE: bv32 := 0x0101_0000

  /** is_busy: busy unless both idle flags of sts0 are set. */
  predicate PoolBusy(sts0: bv32)
  {
    sts0 & 3 != 3
  }

  /** The result of start: -1 unless the calculation subsystem is enabled, -2 while busy. */
  function PoolStartStatus(ctrl0: bv32, sts0: bv32): (s: int)
    ensures s == 0 <==> ctrl0 & CTRL_CAL_SUB_SYS != 0 && !PoolBusy(sts0)
    ensures s == -1 <==> ctrl0 & CTRL_CAL_SUB_SYS == 0
    ensures s == -2 <==> ctrl0 & CTRL_CAL_SUB_SYS != 0 && PoolBusy(sts0)
  {
    if ctrl0 & CTRL_CAL_SUB_SYS == 0 then -1
    else if PoolBusy(sts0) then -2
    else 0
  }

  /** Whether a 4-bit code written to the field at `shift` of cal_cfg0 reads back unchanged. */
  predicate CalCfg0Keeps(writable: PoolReg -> bv32, tied: PoolReg -> bv32, shift: bv32, code: bv32)
    requires shift < 32
  {
    FieldIs(Readback(writable(CalCfg0), tied(CalCfg0), code << shift), shift, 0xF, code)
  }

  /**
   * The properties init records: the identity, the raw limit fields of
   * info0 to info3 each truncated to its property's width, the post
   * multiply-add stage from its parallelism field, and the readback probes.
   */
  function PoolProbedProp(ident: DeviceIdent, info0: bv32, info1: bv32, info2: bv32, info3: bv32,
                          writable: PoolReg -> bv32, tied: PoolReg -> bv32): (p: PoolProp)
    ensures p.ident == ident
    ensures p.postMacSupported <==> (info0 >> 8) & 0xFF != 0
  {
    PoolProp(
      ident := ident,
      maxPoolSupported := CalCfg0Keeps(writable, tied, 0, ModeMax.Code()),
      avgPoolSupported := CalCfg0Keeps(writable, tied, 0, ModeAvg.Code()),
      upSampleSupported := CalCfg0Keeps(writable, tied, 0, ModeUpsample.Code()),
      int8Supported := CalCfg0Keeps(writable, tied, 4, ConvTypes.CalFmt.Int8.Code()),
      int16Supported := CalCfg0Keeps(writable, tied, 4, ConvTypes.CalFmt.Int16.Code()),
      fp16Supported := CalCfg0Keeps(writable, tied, 4, ConvTypes.CalFmt.Fp16.Code()),
      postMacSupported := (info0 >> 8) & 0xFF != 0,
      extPaddingSupported := Readback(writable(FmapCfg4), tied(FmapCfg4), EXT_PADDING_PROBE) == EXT_PADDING_PROBE,
      nonZeroConstPaddingSupported := Readback(writable(CalCfg2), tied(CalCfg2), 1) == 1,
      performanceMonitorSupported := BitSet(Readback(writable(Ctrl0), tied(Ctrl0), CTRL_PM), CTRL_PM),
      atomicC := Raw8(info0 & 0xFF),
      postMacPrlN := Raw8((info0 >> 8) & 0xFF),
      mm2sStreamDataWidth := Raw16(info1 & 0xFFFF),
      s2mmStreamDataWidth := Raw16((info1 >> 16) & 0xFFFF),
      phyBufBankN := Raw16(info2 & 0xFFFF),
      phyBufBankDepth := Raw16((info2 >> 16) & 0xFFFF),
      maxFmbufRowN := Raw16((info0 >> 16) & 0xFFFF),
      midResBufBankN := Raw16(info3 & 0xFFFF),
      midResBufBankDepth := Raw16((info3 >> 16) & 0xFFFF))
  }

  /**
   * The region after init: cal_cfg0 keeps the last format probe, fmap_cfg4
   * and cal_cfg2 their probe patterns, and ctrl0 is overwritten with zero.
   */
  function PoolProbedRegs(regs: map<PoolReg, bv32>, rf: RegFile<PoolReg>): map<PoolReg, bv32>
  {
    regs[CalCfg0 := rf.After(CalCfg0, ConvTypes.CalFmt.Fp16.Code() << 4)]
        [FmapCfg4 := rf.After(FmapCfg4, EXT_PADDING_PROBE)]
        [CalCfg2 := rf.After(CalCfg2, 1)]
        [Ctrl0 := rf.After(Ctrl0, 0)]
  }

  /**
   * The region after a successful configuration: the calculation words,
   * ctrl0's post multiply-add bit and, with the stage, its three words,
   * then the feature-map and buffer words, in the order the routines
   * write them.
   */
  function PoolWritten(regs: map<PoolReg, bv32>, rf: RegFile<PoolReg>, img: PoolImage): (m: map<PoolReg, bv32>)
    requires Ctrl0 in regs
    ensures m.Keys == regs.Keys + {CalCfg0, CalCfg1, CalCfg2, FmapCfg0, FmapCfg1, FmapCfg2, FmapCfg3, FmapCfg4, FmapCfg5, FmapCfg6, BufCfg0, BufCfg1}
              + (if img.postMac.Some? then {CalCfg3, CalCfg4, CalCfg5} else {})
  {
    BufWritten(FmapWritten(PostMacWritten(CalWritten(regs, rf, img), rf, img.postMac), rf, img.fmap), rf, img)
  }

  /** cal_cfg0 to cal_cfg2. */
  function CalWritten(regs: map<PoolReg, bv32>, rf: RegFile<PoolReg>, img: PoolImage): (m: map<PoolReg, bv32>)
    ensures m.Keys == regs.Keys + {CalCfg0, CalCfg1, CalCfg2}
    ensures Ctrl0 in regs ==> m[Ctrl0] == regs[Ctrl0]
  {
    regs[CalCfg0 := rf.After(CalCfg0, img.calCfg0)]
        [CalCfg1 := rf.After(CalCfg1, img.calCfg1)]
        [CalCfg2 := rf.After(CalCfg2, img.calCfg2)]
  }

  /** ctrl0 with bit 9 set and cal_cfg3 to cal_cfg5 written, or ctrl0 with bit 9 cleared. */
  function PostMacWritten(regs: map<PoolReg, bv32>, rf: RegFile<PoolReg>, pm: Option<PostMacImage>): (m: map<PoolReg, bv32>)
    requires Ctrl0 in regs
    ensures m.Keys == regs.Keys + if pm.Some? then {CalCfg3, CalCfg4, CalCfg5} else {}
  {
    match pm
    case Some(w) =>
      regs[Ctrl0 := PostMacCtrl0(rf, regs[Ctrl0], pm)]
          [CalCfg3 := rf.After(CalCfg3, w.calCfg3)]
          [CalCfg4 := rf.After(CalCfg4, w.calCfg4)]
          [CalCfg5 := rf.After(CalCfg5, w.calCfg5)]
    case None =>
      regs[Ctrl0 := PostMacCtrl0(rf, regs[Ctrl0], pm)]
  }

  /** What ctrl0 reads back after its post multiply-add bit is set (stage used) or cleared (stage bypassed). */
  function PostMacCtrl0(rf: RegFile<PoolReg>, ctrl0: bv32, pm: Option<PostMacImage>): bv32
  {
    rf.After(Ctrl0, if pm.Some? then ctrl0 | CTRL_POST_MAC else ctrl0 & !CTRL_POST_MAC)
  }

  /** fmap_cfg0 to fmap_cfg6. */
  function FmapWritten(regs: map<PoolReg, bv32>, rf: RegFile<PoolReg>, w: FmapImage): (m: map<PoolReg, bv32>)
    ensures m.Keys == regs.Keys + {FmapCfg0, FmapCfg1, FmapCfg2, FmapCfg3, FmapCfg4, FmapCfg5, FmapCfg6}
  {
    regs[FmapCfg0 := rf.After(FmapCfg0, w.fmapCfg0)]
        [FmapCfg1 := rf.After(FmapCfg1, w.fmapCfg1)]
        [FmapCfg2 := rf.After(FmapCfg2, w.fmapCfg2)]
        [FmapCfg3 := rf.After(FmapCfg3, w.fmapCfg3)]
        [FmapCfg4 := rf.After(FmapCfg4, w.fmapCfg4)]
        [FmapCfg5 := rf.After(FmapCfg5, w.fmapCfg5)]
        [FmapCfg6 := rf.After(FmapCfg6, w.fmapCfg6)]
  }

  /** buf_cfg0 and buf_cfg1. */
  function BufWritten(regs: map<PoolReg, bv32>, rf: RegFile<PoolReg>, img: PoolImage): (m: map<PoolReg, bv32>)
    ensures m.Keys == regs.Keys + {BufCfg0, BufCfg1}
  {
    regs[BufCfg0 := rf.After(BufCfg0, img.bufCfg0)][BufCfg1 := rf.After(BufCfg1, img.bufCfg1)]
  }

  /** The region after clr_cmd_fns_n with selector `t`. */
  function ClearedCmdCounters(regs: map<PoolReg, bv32>, rf: RegFile<PoolReg>, t: PoolCmdFnsClear): map<PoolReg, bv32>
  {
    var a := if t == ClearMm2s || t == ClearAll then regs[Sts1 := rf.After(Sts1, 0)] else regs;
    if t == ClearS2mm || t == ClearAll then a[Sts2 := rf.After(Sts2, 0)] else a
  }

  /** The properties recorded before init has run: no identity, every capability absent, every limit zero. */
  function UnprobedPoolProp(): (p: PoolProp)
    ensures !p.performanceMonitorSupported && !p.upSampleSupported
  {
    PoolProp(DeviceIdent([], [], 0), false, false, false, false, false, false, false, false, false, false,
             0, 0, 0, 0, 0, 0, 0, 0, 0)
  }

  class PoolHandler {
    var prop: PoolProp
    const rf: RegFile<PoolReg>

    ghost predicate Valid()
      reads this, rf
    {
      rf.Valid()
    }

    /** A handler bound to a register region, before init. */
    constructor(rf: RegFile<PoolReg>)
      requires rf.Valid()
      ensures Valid()
      ensures this.rf == rf && prop == UnprobedPoolProp()
    {
      this.rf := rf;
      prop := UnprobedPoolProp();
    }

    /**
     * init: -1 and nothing touched unless the name register carries the
     * pooling type code; otherwise the identity is decoded, the properties
     * are those the limits and probes report, the probed registers keep
     * their probe readbacks and ctrl0 is overwritten with zero.
     */
    method Init() returns (status: int)
      requires Valid()
      modifies this, rf
      ensures Valid()
      ensures status == 0 || status == -1
      ensures status == -1 <==> !IsDevice(old(rf.regs[AccName]), POOL_ACC_TYPE)
      ensures status == -1 ==> prop == old(prop) && rf.regs == old(rf.regs)
      ensures status == 0 ==> IdentDecodes(prop.ident, old(rf.regs[Version]), old(rf.regs[AccName]))
      ensures status == 0 ==> prop == PoolProbedProp(prop.ident, old(rf.regs[Info0]), old(rf.regs[Info1]),
                                                     old(rf.regs[Info2]), old(rf.regs[Info3]), rf.writable, rf.tied)
      ensures status == 0 ==> rf.regs == PoolProbedRegs(old(rf.regs), rf)
    {
      var name := rf.Load(AccName);
      if !IsDevice(name, POOL_ACC_TYPE) {
        return -1;
      }
      var versionWord := rf.Load(Version);
      var ident := DecodeIdent(versionWord, name);
      var info0 := rf.Load(Info0);
      var info1 := rf.Load(Info1);
      var info2 := rf.Load(Info2);
      var info3 := rf.Load(Info3);
      prop := ProbeProp(ident, info0, info1, info2, info3);
      status := 0;
    }

    /** Every capability probe in the order init runs them, combined with the limits of info0 to info3. */
    method ProbeProp(ident: DeviceIdent, info0: bv32, info1: bv32, info2: bv32, info3: bv32) returns (p: PoolProp)
      requires Valid()
      modifies rf
      ensures Valid()
      ensures p == PoolProbedProp(ident, info0, info1, info2, info3, rf.writable, rf.tied)
      ensures rf.regs == PoolProbedRegs(old(rf.regs), rf)
    {
      var avg, max, ups, int8, int16, fp16 := ProbeCalCfg0();
      var ext, nzc := ProbePadding();
      var pm := ProbePerfMon();
      p := PoolProp(ident, max, avg, ups, int8, int16, fp16, (info0 >> 8) & 0xFF != 0, ext, nzc, pm,
                    Raw8(info0 & 0xFF), Raw8((info0 >> 8) & 0xFF),
                    Raw16(info1 & 0xFFFF), Raw16((info1 >> 16) & 0xFFFF),
                    Raw16(info2 & 0xFFFF), Raw16((info2 >> 16) & 0xFFFF),
                    Raw16((info0 >> 16) & 0xFFFF),
                    Raw16(info3 & 0xFFFF), Raw16((info3 >> 16) & 0xFFFF));
    }

    /** The mode probes, then the format probes, all on cal_cfg0. */
    method ProbeCalCfg0() returns (avg: bool, max: bool, ups: bool, int8: bool, int16: bool, fp16: bool)
      requires Valid()
      modifies rf
      ensures Valid()
      ensures rf.regs == old(rf.regs)[CalCfg0 := rf.After(CalCfg0, ConvTypes.CalFmt.Fp16.Code() << 4)]
      ensures avg == CalCfg0Keeps(rf.writable, rf.tied, 0, ModeAvg.Code())
      ensures max == CalCfg0Keeps(rf.writable, rf.tied, 0, ModeMax.Code())
      ensures ups == CalCfg0Keeps(rf.writable, rf.tied, 0, ModeUpsample.Code())
      ensures int8 == CalCfg0Keeps(rf.writable, rf.tied, 4, ConvTypes.CalFmt.Int8.Code())
      ensures int16 == CalCfg0Keeps(rf.writable, rf.tied, 4, ConvTypes.CalFmt.Int16.Code())
      ensures fp16 == CalCfg0Keeps(rf.writable, rf.tied, 4, ConvTypes.CalFmt.Fp16.Code())
    {
      ghost var m := rf.regs;
      avg, max, ups := ProbeModes();
      int8, int16, fp16 := ProbeFormats();
      StoreTwice(m, CalCfg0, rf.After(CalCfg0, ModeUpsample.Code()), rf.After(CalCfg0, ConvTypes.CalFmt.Fp16.Code() << 4));
    }

    /** The processing-mode probes: each mode code is written to cal_cfg0 and its field read back. */
    method ProbeModes() returns (avg: bool, max: bool, ups: bool)
      requires Valid()
      modifies rf
      ensures Valid()
      ensures rf.regs == old(rf.regs)[CalCfg0 := rf.After(CalCfg0, ModeUpsample.Code())]
      ensures avg == CalCfg0Keeps(rf.writable, rf.tied, 0, ModeAvg.Code())
      ensures max == CalCfg0Keeps(rf.writable, rf.tied, 0, ModeMax.Code())
      ensures ups == CalCfg0Keeps(rf.writable, rf.tied, 0, ModeUpsample.Code())
    {
      var v: bv32;
      ghost var m := rf.regs;
      rf.Store(CalCfg0, ModeAvg.Code());
      v := rf.Load(CalCfg0);
      avg := FieldIs(v, 0, 0xF, ModeAvg.Code());
      rf.Store(CalCfg0, ModeMax.Code());
      StoreTwice(m, CalCfg0, rf.After(CalCfg0, ModeAvg.Code()), rf.After(CalCfg0, ModeMax.Code()));
      v := rf.Load(CalCfg0);
      max := FieldIs(v, 0, 0xF, ModeMax.Code());
      rf.Store(CalCfg0, ModeUpsample.Code());
      StoreTwice(m, CalCfg0, rf.After(CalCfg0, ModeMax.Code()), rf.After(CalCfg0, ModeUpsample.Code()));
      v := rf.Load(CalCfg0);
      ups := FieldIs(v, 0, 0xF, ModeUpsample.Code());
    }

    /** The format probes: each format code is written to bits 4 to 7 of cal_cfg0 and read back. */
    method ProbeFormats() returns (int8: bool, int16: bool, fp16: bool)
      requires Valid()
      modifies rf
      ensures Valid()
      ensures rf.regs == old(rf.regs)[CalCfg0 := rf.After(CalCfg0, ConvTypes.CalFmt.Fp16.Code() << 4)]
      ensures int8 == CalCfg0Keeps(rf.writable, rf.tied, 4, ConvTypes.CalFmt.Int8.Code())
      ensures int16 == CalCfg0Keeps(rf.writable, rf.tied, 4, ConvTypes.CalFmt.Int16.Code())
      ensures fp16 == CalCfg0Keeps(rf.writable, rf.tied, 4, ConvTypes.CalFmt.Fp16.Code())
    {
      var v: bv32;
      ghost var m := rf.regs;
      var i8, i16, f16 := ConvTypes.CalFmt.Int8.Code() << 4, ConvTypes.CalFmt.Int16.Code() << 4, ConvTypes.CalFmt.Fp16.Code() << 4;
      rf.Store(CalCfg0, i8);
      v := rf.Load(CalCfg0);
      int8 := FieldIs(v, 4, 0xF, ConvTypes.CalFmt.Int8.Code());
      rf.Store(CalCfg0, i16);
      StoreTwice(m, CalCfg0, rf.After(CalCfg0, i8), rf.After(CalCfg0, i16));
      v := rf.Load(CalCfg0);
      int16 := FieldIs(v, 4, 0xF, ConvTypes.CalFmt.Int16.Code());
      rf.Store(CalCfg0, f16);
      StoreTwice(m, CalCfg0, rf.After(CalCfg0, i16), rf.After(CalCfg0, f16));
      v := rf.Load(CalCfg0);
      fp16 := FieldIs(v, 4, 0xF, ConvTypes.CalFmt.Fp16.Code());
    }

    /**
     * The padding probes: the external-padding pattern written to fmap_cfg4
     * and the constant-padding flag written to cal_cfg2, each compared as a
     * whole word with what was written.
     */
    method ProbePadding() returns (ext: bool, nzc: bool)
      requires Valid()
      modifies rf
      ensures Valid()
      ensures rf.regs == old(rf.regs)[FmapCfg4 := rf.After(FmapCfg4, EXT_PADDING_PROBE)][CalCfg2 := rf.After(CalCfg2, 1)]
      ensures ext == (rf.After(FmapCfg4, EXT_PADDING_PROBE) == EXT_PADDING_PROBE)
      ensures nzc == (rf.After(CalCfg2, 1) == 1)
    {
      var v: bv32;
      rf.Store(FmapCfg4, EXT_PADDING_PROBE);
      v := rf.Load(FmapCfg4);
      ext := v == EXT_PADDING_PROBE;
      rf.Store(CalCfg2, 1);
      v := rf.Load(CalCfg2);
      nzc := v == 1;
    }

    /** The performance-monitor probe: ctrl0 overwritten with its bit alone, read back, then overwritten with zero. */
    method ProbePerfMon() returns (pm: bool)
      requires Valid()
      modifies rf
      ensures Valid()
      ensures rf.regs == old(rf.regs)[Ctrl0 := rf.After(Ctrl0, 0)]
      ensures pm == BitSet(rf.After(Ctrl0, CTRL_PM), CTRL_PM)
    {
      ghost var m := rf.regs;
      rf.Store(Ctrl0, CTRL_PM);
      var v := rf.Load(Ctrl0);
      pm := BitSet(v, CTRL_PM);
      rf.Store(Ctrl0, 0);
      StoreTwice(m, Ctrl0, rf.After(Ctrl0, CTRL_PM), rf.After(Ctrl0, 0));
    }

    /** Sets the calculation-subsystem enable bit of ctrl0. */
    method EnableCalSubSys() returns (status: int)
      requires Valid()
      modifies rf
      ensures Valid() && status == 0
      ensures rf.regs == old(rf.regs)[Ctrl0 := rf.After(Ctrl0, old(rf.regs[Ctrl0]) | CTRL_CAL_SUB_SYS)]
    {
      var pre := rf.Load(Ctrl0);
      rf.Store(Ctrl0, pre | CTRL_CAL_SUB_SYS);
      status := 0;
    }

    /** Clears the calculation-subsystem enable bit of ctrl0. */
    method DisableCalSubSys()
      requires Valid()
      modifies rf
      ensures Valid()
      ensures rf.regs == old(rf.regs)[Ctrl0 := rf.After(Ctrl0, old(rf.regs[Ctrl0]) & !CTRL_CAL_SUB_SYS)]
    {
      var pre := rf.Load(Ctrl0);
      rf.Store(Ctrl0, pre & !CTRL_CAL_SUB_SYS);
    }

    /** Sets the performance-monitor bit of ctrl0; -1 and nothing written when the probe found none. */
    method EnablePmCnt() returns (status: int)
      requires Valid()
      modifies rf
      ensures Valid()
      ensures status == 0 || status == -1
      ensures status == -1 <==> !prop.performanceMonitorSupported
      ensures status == -1 ==> rf.regs == old(rf.regs)
      ensures status == 0 ==> rf.regs == old(rf.regs)[Ctrl0 := rf.After(Ctrl0, old(rf.regs[Ctrl0]) | CTRL_PM)]
    {
      if !prop.performanceMonitorSupported {
        return -1;
      }
      var pre := rf.Load(Ctrl0);
      rf.Store(Ctrl0, pre | CTRL_PM);
      status := 0;
    }

    /** Clears the performance-monitor bit of ctrl0. */
    method DisablePmCnt()
      requires Valid()
      modifies rf
      ensures Valid()
      ensures rf.regs == old(rf.regs)[Ctrl0 := rf.After(Ctrl0, old(rf.regs[Ctrl0]) & !CTRL_PM)]
    {
      var pre := rf.Load(Ctrl0);
      rf.Store(Ctrl0, pre & !CTRL_PM);
    }

    /**
     * start: -1 unless the calculation subsystem is enabled, -2 while busy,
     * otherwise both start bits are set in ctrl0.
     */
    method Start() returns (status: int)
      requires Valid()
      modifies rf
      ensures Valid()
      ensures status == PoolStartStatus(old(rf.regs[Ctrl0]), old(rf.regs[Sts0]))
      ensures status != 0 ==> rf.regs == old(rf.regs)
      ensures status == 0 ==> rf.regs == old(rf.regs)[Ctrl0 := rf.After(Ctrl0, old(rf.regs[Ctrl0]) | CTRL_START)]
    {
      var pre := rf.Load(Ctrl0);
      if pre & CTRL_CAL_SUB_SYS == 0 {
        return -1;
      }
      var busy := IsBusy();
      if busy {
        return -2;
      }
      rf.Store(Ctrl0, pre | CTRL_START);
      status := 0;
    }

    /** is_busy: busy unless both idle flags of sts0 are set. */
    method IsBusy() returns (busy: bool)
      requires Valid()
      ensures busy == PoolBusy(rf.regs[Sts0])
    {
      var sts0 := rf.Load(Sts0);
      busy := sts0 & 3 != 3;
    }

    /**
     * cfg_in_pool_mode: the result code of the pooling-mode compiler; on
     * success every word of its image is written, on failure nothing is.
     */
    method CfgInPoolMode(mode: ProcMode, f: PoolFmapCfg, coln: PoolFmbufColn, c: PoolModeCfg) returns (status: int)
      requires Valid()
      requires PoolCompile(prop, mode, f, coln, c) != Undefined
      modifies rf
      ensures Valid()
      ensures var r := PoolCompile(prop, mode, f, coln, c);
        && (status == 0 <==> r.Ok?)
        && (r.Fail? ==> status == r.code && rf.regs == old(rf.regs))
        && (r.Ok? ==> rf.regs == PoolWritten(old(rf.regs), rf, r.value))
    {
      status := Commit(PoolCompile(prop, mode, f, coln, c));
    }

    /**
     * cfg_in_up_sample_mode: the result code of the up-sampling compiler;
     * on success every word of its image is written, on failure nothing is.
     */
    method CfgInUpSampleMode(f: PoolFmapCfg, coln: PoolFmbufColn, c: UpsModeCfg) returns (status: int)
      requires Valid()
      requires UpsCompile(prop, f, coln, c) != Undefined
      modifies rf
      ensures Valid()
      ensures var r := UpsCompile(prop, f, coln, c);
        && (status == 0 <==> r.Ok?)
        && (r.Fail? ==> status == r.code && rf.regs == old(rf.regs))
        && (r.Ok? ==> rf.regs == PoolWritten(old(rf.regs), rf, r.value))
    {
      status := Commit(UpsCompile(prop, f, coln, c));
    }

    /** Returns the failure code of a rejected configuration, or writes the image of an accepted one. */
    method Commit(r: Outcome<PoolImage>) returns (status: int)
      requires Valid()
      requires r != Undefined
      modifies rf
      ensures Valid()
      ensures r.Ok? ==> status == 0
      ensures r.Fail? ==> status == r.code && rf.regs == old(rf.regs)
      ensures r.Ok? ==> rf.regs == PoolWritten(old(rf.regs), rf, r.value)
    {
      match r
      case Fail(code) =>
        return code;
      case Ok(img) =>
        WriteImage(img);
        status := 0;
    }

    /** Stores every word of a register image, in the order the configuration routines write them. */
    method WriteImage(img: PoolImage)
      requires Valid()
      modifies rf
      ensures Valid()
      ensures rf.regs == PoolWritten(old(rf.regs), rf, img)
    {
      rf.Store(CalCfg0, img.calCfg0);
      rf.Store(CalCfg1, img.calCfg1);
      rf.Store(CalCfg2, img.calCfg2);
      WritePostMac(img.postMac);
      WriteFmap(img.fmap);
      rf.Store(BufCfg0, img.bufCfg0);
      rf.Store(BufCfg1, img.bufCfg1);
    }

    /** Read-modify-write of ctrl0's post multiply-add bit and, with the stage, cal_cfg3 to cal_cfg5. */
    method WritePostMac(pm: Option<PostMacImage>)
      requires Valid()
      modifies rf
      ensures Valid()
      ensures rf.regs == PostMacWritten(old(rf.regs), rf, pm)
    {
      if pm.Some? {
        UsePostMac(pm.value);
      } else {
        BypassPostMac();
      }
    }

    method UsePostMac(w: PostMacImage)
      requires Valid()
      modifies rf
      ensures Valid()
      ensures rf.regs == PostMacWritten(old(rf.regs), rf, Some(w))
    {
      var pre := rf.Load(Ctrl0);
      rf.Store(Ctrl0, pre | CTRL_POST_MAC);
      rf.Store(CalCfg3, w.calCfg3);
      rf.Store(CalCfg4, w.calCfg4);
      rf.Store(CalCfg5, w.calCfg5);
    }

    method BypassPostMac()
      requires Valid()
      modifies rf
      ensures Valid()
      ensures rf.regs == PostMacWritten(old(rf.regs), rf, None)
    {
      var pre := rf.Load(Ctrl0);
      rf.Store(Ctrl0, pre & !CTRL_POST_MAC);
    }

    method WriteFmap(w: FmapImage)
      requires Valid()
      modifies rf
      ensures Valid()
      ensures rf.regs == FmapWritten(old(rf.regs), rf, w)
    {
      rf.Store(FmapCfg0, w.fmapCfg0);
      rf.Store(FmapCfg1, w.fmapCfg1);
      rf.Store(FmapCfg2, w.fmapCfg2);
      rf.Store(FmapCfg3, w.fmapCfg3);
      rf.Store(FmapCfg4, w.fmapCfg4);
      rf.Store(FmapCfg5, w.fmapCfg5);
      rf.Store(FmapCfg6, w.fmapCfg6);
    }

    /** get_cmd_fns_n: the completed-command counter of the queried DMA channel, sts1 or sts2. */
    method GetCmdFnsN(q: PoolCmdFnsQuery) returns (n: bv32)
      requires Valid()
      ensures n == rf.regs[if q.QueryMm2s? then Sts1 else Sts2]
    {
      match q
      case QueryMm2s => n := rf.Load(Sts1);
      case QueryS2mm => n := rf.Load(Sts2);
    }

    /** clr_cmd_fns_n: writes zero to the selected counter, or to both. */
    method ClrCmdFnsN(t: PoolCmdFnsClear) returns (status: int)
      requires Valid()
      modifies rf
      ensures Valid() && status == 0
      ensures rf.regs == ClearedCmdCounters(old(rf.regs), rf, t)
    {
      if t == ClearMm2s || t == ClearAll {
        rf.Store(Sts1, 0);
      }
      if t == ClearS2mm || t == ClearAll {
        rf.Store(Sts2, 0);
      }
      status := 0;
    }

    /** get_pm_cnt: the performance counter sts3, read whether or not a monitor was found. */
    method GetPmCnt() returns (n: bv32)
      requires Valid()
      ensures n == rf.regs[Sts3]
    {
      n := rf.Load(Sts3);
    }

    /** clr_pm_cnt: -1 without a performance monitor, otherwise zero is written to sts3. */
    method ClrPmCnt() returns (status: int)
      requires Valid()
      modifies rf
      ensures Valid()
      ensures status == 0 || status == -1
      ensures status == -1 <==> !prop.performanceMonitorSupported
      ensures status == -1 ==> rf.regs == old(rf.regs)
      ensures status == 0 ==> rf.regs == old(rf.regs)[Sts3 := rf.After(Sts3, 0)]
    {
      if !prop.performanceMonitorSupported {
        return -1;
      }
      rf.Store(Sts3, 0);
      status := 0;
    }
  }

  /**
   * What the cal_cfg0 probes report: a mode or format code counts as
   * supported exactly when its one bits latch or are tied high and no other
   * bit of its 4-bit field is tied high.
   */
  lemma CalCfg0ProbesMeaning(ident: DeviceIdent, info0: bv32, info1: bv32, info2: bv32, info3: bv32,
                             writable: PoolReg -> bv32, tied: PoolReg -> bv32)
    ensures var p := PoolProbedProp(ident, info0, info1, info2, info3, writable, tied);
      var high := writable(CalCfg0) | tied(CalCfg0);
      var stuck := tied(CalCfg0) & !writable(CalCfg0);
      && (p.avgPoolSupported <==> stuck & 0xF == 0)
      && (p.maxPoolSupported <==> high & 1 == 1 && stuck & 0xE == 0)
      && (p.upSampleSupported <==> high & 2 == 2 && stuck & 0xD == 0)
      && (p.int8Supported <==> stuck & 0xF0 == 0)
      && (p.int16Supported <==> high & 0x10 == 0x10 && stuck & 0xE0 == 0)
      && (p.fp16Supported <==> high & 0x20 == 0x20 && stuck & 0xD0 == 0)
  {
  }

  /**
   * The padding probes compare whole words: each reports support only when
   * the written one bits latch or are tied high and no other bit of the
   * register is tied high, so a cal_cfg2 with a constant field tied to a
   * nonzero value reports no constant padding. The performance monitor is
   * found when its ctrl0 bit latches or is tied high.
   */
  lemma PaddingAndMonitorProbesMeaning(ident: DeviceIdent, info0: bv32, info1: bv32, info2: bv32, info3: bv32,
                                       writable: PoolReg -> bv32, tied: PoolReg -> bv32)
    ensures var p := PoolProbedProp(ident, info0, info1, info2, info3, writable, tied);
      && (p.extPaddingSupported <==>
            (writable(FmapCfg4) | tied(FmapCfg4)) & EXT_PADDING_PROBE == EXT_PADDING_PROBE
            && tied(FmapCfg4) & !writable(FmapCfg4) & !EXT_PADDING_PROBE == 0)
      && (p.nonZeroConstPaddingSupported <==>
            (writable(CalCfg2) | tied(CalCfg2)) & 1 == 1 && tied(CalCfg2) & !writable(CalCfg2) & !1 == 0)
      && (p.performanceMonitorSupported <==> (writable(Ctrl0) | tied(Ctrl0)) & CTRL_PM != 0)
  {
  }

  /** The registers the probes of init store to. */
  predicate ProbedByInit(r: PoolReg)
  {
    r.CalCfg0? || r.FmapCfg4? || r.CalCfg2? || r.Ctrl0?
  }

  /**
   * Init leaves cal_cfg0 holding the FP16 format probe, fmap_cfg4 and
   * cal_cfg2 their probe patterns, and ctrl0 zero in every writable bit;
   * no other register is touched.
   */
  lemma InitLeavesProbePatterns(regs: map<PoolReg, bv32>, rf: RegFile<PoolReg>)
    ensures var m := PoolProbedRegs(regs, rf);
      && m[CalCfg0] == rf.After(CalCfg0, 0x20)
      && m[FmapCfg4] == rf.After(FmapCfg4, EXT_PADDING_PROBE)
      && m[CalCfg2] == rf.After(CalCfg2, 1)
      && m[Ctrl0] & rf.writable(Ctrl0) == 0
    ensures forall r: PoolReg :: !ProbedByInit(r) && r in regs ==> PoolProbedRegs(regs, rf)[r] == regs[r]
  {
  }

  /**
   * Unlike the convolution driver, init overwrites ctrl0 instead of
   * clearing one bit: afterwards ctrl0 holds only its tied-high bits, and a
   * start returns -1 unless the calculation-subsystem bit is tied high.
   */
  lemma InitStopsAccelerator(regs: map<PoolReg, bv32>, rf: RegFile<PoolReg>, sts0: bv32)
    ensures PoolProbedRegs(regs, rf)[Ctrl0] == rf.tied(Ctrl0) & !rf.writable(Ctrl0)
    ensures PoolStartStatus(PoolProbedRegs(regs, rf)[Ctrl0], sts0) == -1
        <==> rf.tied(Ctrl0) & !rf.writable(Ctrl0) & CTRL_CAL_SUB_SYS == 0
  {
  }

  /** The registers a successful configuration stores to: cal_cfg3 to cal_cfg5 only with the post multiply-add stage. */
  predicate WrittenByCfg(img: PoolImage, r: PoolReg)
  {
    || r.CalCfg0? || r.CalCfg1? || r.CalCfg2? || r.Ctrl0?
    || (img.postMac.Some? && (r.CalCfg3? || r.CalCfg4? || r.CalCfg5?))
    || r.FmapCfg0? || r.FmapCfg1? || r.FmapCfg2? || r.FmapCfg3? || r.FmapCfg4? || r.FmapCfg5? || r.FmapCfg6?
    || r.BufCfg0? || r.BufCfg1?
  }

  /**
   * A successful configuration stores only to the configuration registers
   * and ctrl0: the status counters and the information words keep their
   * values, and without the post multiply-add stage so do cal_cfg3 to
   * cal_cfg5.
   */
  lemma CfgWritesOnlyConfiguration(regs: map<PoolReg, bv32>, rf: RegFile<PoolReg>, img: PoolImage)
    requires forall r :: r in regs
    ensures forall r: PoolReg :: !WrittenByCfg(img, r) ==> PoolWritten(regs, rf, img)[r] == regs[r]
  {
    CalFrame(regs, rf, img);
    var m1 := CalWritten(regs, rf, img);
    PostMacFrame(m1, rf, img.postMac);
    var m2 := PostMacWritten(m1, rf, img.postMac);
    FmapFrame(m2, rf, img.fmap);
    BufFrame(FmapWritten(m2, rf, img.fmap), rf, img);
  }

  /**
   * After a successful configuration ctrl0 has had only its post
   * multiply-add bit changed, set when the stage is used and cleared when
   * it is not, and the buffer registers hold the readback of their words.
   */
  lemma CfgWritesImage(regs: map<PoolReg, bv32>, rf: RegFile<PoolReg>, img: PoolImage)
    requires forall r :: r in regs
    ensures var m := PoolWritten(regs, rf, img);
      && m[Ctrl0] == PostMacCtrl0(rf, regs[Ctrl0], img.postMac)
      && m[BufCfg0] == rf.After(BufCfg0, img.bufCfg0)
      && m[BufCfg1] == rf.After(BufCfg1, img.bufCfg1)
  {
    var m1 := CalWritten(regs, rf, img);
    var m2 := PostMacWritten(m1, rf, img.postMac);
    assert m2[Ctrl0] == PostMacCtrl0(rf, regs[Ctrl0], img.postMac);
    FmapBufKeepCtrl0(m2, rf, img);
  }

  /** The feature-map and buffer stores leave ctrl0 alone. */
  lemma FmapBufKeepCtrl0(m: map<PoolReg, bv32>, rf: RegFile<PoolReg>, img: PoolImage)
    requires Ctrl0 in m
    ensures BufWritten(FmapWritten(m, rf, img.fmap), rf, img)[Ctrl0] == m[Ctrl0]
  {
  }

  lemma CalFrame(regs: map<PoolReg, bv32>, rf: RegFile<PoolReg>, img: PoolImage)
    requires forall r :: r in regs
    ensures forall r :: r in CalWritten(regs, rf, img)
    ensures var m := CalWritten(regs, rf, img);
      && m[CalCfg0] == rf.After(CalCfg0, img.calCfg0) && m[CalCfg1] == rf.After(CalCfg1, img.calCfg1)
      && m[CalCfg2] == rf.After(CalCfg2, img.calCfg2)
    ensures forall r: PoolReg :: !(r.CalCfg0? || r.CalCfg1? || r.CalCfg2?) ==> CalWritten(regs, rf, img)[r] == regs[r]
  {
  }

  lemma PostMacFrame(regs: map<PoolReg, bv32>, rf: RegFile<PoolReg>, pm: Option<PostMacImage>)
    requires forall r :: r in regs
    ensures forall r :: r in PostMacWritten(regs, rf, pm)
    ensures PostMacWritten(regs, rf, pm)[Ctrl0] == PostMacCtrl0(rf, regs[Ctrl0], pm)
    ensures pm.Some? ==> PostMacWritten(regs, rf, pm)[CalCfg3] == rf.After(CalCfg3, pm.value.calCfg3)
    ensures forall r: PoolReg :: !(r.CalCfg3? || r.CalCfg4? || r.CalCfg5? || r.Ctrl0?) ==> PostMacWritten(regs, rf, pm)[r] == regs[r]
    ensures pm.None? ==> forall r: PoolReg :: !r.Ctrl0? ==> PostMacWritten(regs, rf, pm)[r] == regs[r]
  {
  }

  lemma FmapFrame(regs: map<PoolReg, bv32>, rf: RegFile<PoolReg>, w: FmapImage)
    requires forall r :: r in regs
    ensures forall r :: r in FmapWritten(regs, rf, w)
    ensures FmapWritten(regs, rf, w)[FmapCfg6] == rf.After(FmapCfg6, w.fmapCfg6)
    ensures forall r: PoolReg ::
              !(r.FmapCfg0? || r.FmapCfg1? || r.FmapCfg2? || r.FmapCfg3? || r.FmapCfg4? || r.FmapCfg5? || r.FmapCfg6?)
              ==> FmapWritten(regs, rf, w)[r] == regs[r]
  {
  }

  lemma BufFrame(regs: map<PoolReg, bv32>, rf: RegFile<PoolReg>, img: PoolImage)
    requires forall r :: r in regs
    ensures forall r :: r in BufWritten(regs, rf, img)
    ensures var m := BufWritten(regs, rf, img);
      m[BufCfg0] == rf.After(BufCfg0, img.bufCfg0) && m[BufCfg1] == rf.After(BufCfg1, img.bufCfg1)
    ensures forall r: PoolReg :: !(r.BufCfg0? || r.BufCfg1?) ==> BufWritten(regs, rf, img)[r] == regs[r]
  {
  }

  /**
   * A configuration that carries post multiply-add words exactly when `c`
   * requests the stage (as every accepted configuration does, in either
   * mode, since its words are PostMacImageOf(c)) sets ctrl0's post
   * multiply-add bit exactly when the stage is requested, and leaves
   * cal_cfg3 to cal_cfg5 alone when it is not.
   */
  lemma CfgPostMacFollowsRequest(c: PostMacCfg, img: PoolImage, regs: map<PoolReg, bv32>, rf: RegFile<PoolReg>)
    requires forall r :: r in regs
    requires img.postMac.Some? <==> c.usePostMac != 0
    ensures var m := PoolWritten(regs, rf, img);
      && (c.usePostMac != 0 ==> m[Ctrl0] == rf.After(Ctrl0, regs[Ctrl0] | CTRL_POST_MAC))
      && (c.usePostMac == 0 ==> m[Ctrl0] == rf.After(Ctrl0, regs[Ctrl0] & !CTRL_POST_MAC))
      && (c.usePostMac == 0 ==>
            m[CalCfg3] == regs[CalCfg3] && m[CalCfg4] == regs[CalCfg4] && m[CalCfg5] == regs[CalCfg5])
  {
    assert c.usePostMac == 0 ==> !WrittenByCfg(img, CalCfg3) && !WrittenByCfg(img, CalCfg4) && !WrittenByCfg(img, CalCfg5);
    CfgWritesImage(regs, rf, img);
    CfgWritesOnlyConfiguration(regs, rf, img);
  }

  /**
   * The ctrl0 store of the post multiply-add step changes only bit 9: it
   * reads back set when the stage is used, cleared when it is bypassed
   * (unless the bit is wired).
   */
  lemma PostMacCtrl0Meaning(rf: RegFile<PoolReg>, ctrl0: bv32, pm: Option<PostMacImage>)
    ensures rf.writable(Ctrl0) & CTRL_POST_MAC != 0 ==>
      (BitSet(PostMacCtrl0(rf, ctrl0, pm), CTRL_POST_MAC) <==> pm.Some?)
    ensures rf.writable(Ctrl0) & CTRL_POST_MAC == 0 ==>
      (BitSet(PostMacCtrl0(rf, ctrl0, pm), CTRL_POST_MAC) <==> BitSet(rf.tied(Ctrl0), CTRL_POST_MAC))
  {
  }

  /** clr_cmd_fns_n clears exactly the selected counters and nothing else. */
  lemma ClearedCmdCountersMeaning(regs: map<PoolReg, bv32>, rf: RegFile<PoolReg>, t: PoolCmdFnsClear)
    requires forall r: PoolReg :: r in regs
    ensures var m := ClearedCmdCounters(regs, rf, t);
      && m[Sts1] == (if t.ClearS2mm? then regs[Sts1] else rf.After(Sts1, 0))
      && m[Sts2] == (if t.ClearMm2s? then regs[Sts2] else rf.After(Sts2, 0))
      && forall r: PoolReg :: !(r.Sts1? || r.Sts2?) ==> m[r] == regs[r]
  {
  }
}
