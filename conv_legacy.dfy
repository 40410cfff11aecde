/**
 * The legacy convolution driver revision as a handler object over the same
 * register region layout: it has no accelerator enable bit, no batch
 * normalisation or activation unit, the calculation subsystem on bit 0 of
 * ctrl0 and the performance monitor on bit 1, and a single performance
 * counter in sts4.
 */
module ConvLegacy {
  import opened Bits
  import opened Registers
  import opened Ident
  import opened ConvTypes
  import opened ConvProbe
  import opened ConvLayer
  import opened ConvPlan
  import opened ConvLegacyPlan
  import opened Conv

  /** The legacy ctrl0 bits: calculation subsystem, performance monitor, start. */
  const LEGACY_CTRL_CAL_SUB_SYS: bv32 := 1
  const LEGACY_CTRL_PM: bv32 := 2
  const LEGACY_CTRL_START: bv32 := 0x700

  /** The properties the legacy init records: the limits of info0 to info3 and the readback probes. */
  function LegacyProbedProp(ident: DeviceIdent, info0: bv32, info1: bv32, info2: bv32, info3: bv32, ctrl0: bv32,
                            writable: ConvReg -> bv32, tied: ConvReg -> bv32): (p: LegacyConvProp)
    ensures p.InRange()
    ensures p.ident == ident
  {
    LegacyConvProp(ident, ProbedCaps(info0, info1, info2, info3, ctrl0, LEGACY_CTRL_PM, writable, tied))
  }

  /** The region after the legacy init: the capability probes, then ctrl0 with bit 0 cleared. */
  function LegacyProbedRegs(regs: map<ConvReg, bv32>, rf: RegFile<ConvReg>): map<ConvReg, bv32>
    requires forall r :: r in regs
  {
    CapsProbedRegs(regs, rf)[Ctrl0 := rf.After(Ctrl0, rf.After(Ctrl0, regs[Ctrl0]) & !LEGACY_CTRL_CAL_SUB_SYS)]
  }

  /** The region after a successful legacy configuration: the layer words, grp_conv1 always among them. */
  function LegacyWritten(regs: map<ConvReg, bv32>, rf: RegFile<ConvReg>, img: LegacyConvImage): map<ConvReg, bv32>
  {
    BufWritten(FmapKrnWritten(LegacyGroupWritten(regs, rf, img), rf, img.layer), rf, img.layer)
  }

  /** cal_cfg, grp_conv0 and grp_conv1. */
  function LegacyGroupWritten(regs: map<ConvReg, bv32>, rf: RegFile<ConvReg>, img: LegacyConvImage): map<ConvReg, bv32>
  {
    regs[CalCfg := rf.After(CalCfg, img.layer.calCfg)]
        [GrpConv0 := rf.After(GrpConv0, img.layer.grpConv0)]
        [GrpConv1 := rf.After(GrpConv1, img.grpConv1)]
  }

  /** The result of the legacy start: -1 unless ctrl0 bit 0 is set, -2 while busy. */
  function LegacyStartStatus(ctrl0: bv32, sts0: bv32): (s: int)
    ensures s == 0 <==> ctrl0 & LEGACY_CTRL_CAL_SUB_SYS != 0 && !Busy(sts0)
    ensures s == -1 <==> ctrl0 & LEGACY_CTRL_CAL_SUB_SYS == 0
    ensures s == -2 <==> ctrl0 & LEGACY_CTRL_CAL_SUB_SYS != 0 && Busy(sts0)
  {
    if ctrl0 & LEGACY_CTRL_CAL_SUB_SYS == 0 then -1
    else if Busy(sts0) then -2
    else 0
  }

  /** The properties recorded before the legacy init has run. */
  function LegacyUnprobedProp(): (p: LegacyConvProp)
    ensures p.InRange()
  {
    LegacyConvProp(DeviceIdent([], [], 0), UnprobedProp().caps)
  }

  class LegacyConvHandler {
    var prop: LegacyConvProp
    const rf: RegFile<ConvReg>

    ghost predicate Valid()
      reads this, rf
    {
      rf.Valid() && prop.InRange()
    }

    /** A handler bound to a register region, before init. */
    constructor(rf: RegFile<ConvReg>)
      requires rf.Valid()
      ensures Valid()
      ensures this.rf == rf && prop == LegacyUnprobedProp()
    {
      this.rf := rf;
      prop := LegacyUnprobedProp();
    }

    /**
     * init: -1 and nothing touched unless the name register carries the
     * convolution type code; otherwise the identity is decoded, the
     * properties are those the probes report (performance monitor on bit
     * 1), and the calculation subsystem is disabled.
     */
    method Init() returns (status: int)
      requires Valid()
      modifies this, rf
      ensures Valid()
      ensures status == 0 || status == -1
      ensures status == -1 <==> !IsDevice(old(rf.regs[AccName]), CONV_ACC_TYPE)
      ensures status == -1 ==> prop == old(prop) && rf.regs == old(rf.regs)
      ensures status == 0 ==> IdentDecodes(prop.ident, old(rf.regs[Version]), old(rf.regs[AccName]))
      ensures status == 0 ==> prop == LegacyProbedProp(prop.ident, old(rf.regs[Info0]), old(rf.regs[Info1]),
                                                       old(rf.regs[Info2]), old(rf.regs[Info3]), old(rf.regs[Ctrl0]),
                                                       rf.writable, rf.tied)
      ensures status == 0 ==> rf.regs == LegacyProbedRegs(old(rf.regs), rf)
    {
      var name := rf.Load(AccName);
      if !IsDevice(name, CONV_ACC_TYPE) {
        return -1;
      }
      var versionWord := rf.Load(Version);
      var ident := DecodeIdent(versionWord, name);
      var info0 := rf.Load(Info0);
      var info1 := rf.Load(Info1);
      var info2 := rf.Load(Info2);
      var info3 := rf.Load(Info3);
      var caps := ProbeProp(info0, info1, info2, info3);
      prop := LegacyConvProp(ident, caps);
      status := 0;
    }

    /** Every capability probe in the order init runs them, then the calculation subsystem disabled. */
    method ProbeProp(info0: bv32, info1: bv32, info2: bv32, info3: bv32) returns (caps: ConvCaps)
      requires Valid()
      modifies rf
      ensures Valid()
      ensures caps == ProbedCaps(info0, info1, info2, info3, old(rf.regs[Ctrl0]), LEGACY_CTRL_PM, rf.writable, rf.tied)
      ensures rf.regs == LegacyProbedRegs(old(rf.regs), rf)
    {
      caps := ProbeCaps(rf, info0, info1, info2, info3, LEGACY_CTRL_PM);
      DisableCalSubSys();
    }

    /** Sets ctrl0 bit 0, enabling the calculation subsystem. */
    method EnableCalSubSys() returns (status: int)
      requires Valid()
      modifies rf
      ensures Valid() && status == 0
      ensures rf.regs == old(rf.regs)[Ctrl0 := rf.After(Ctrl0, old(rf.regs[Ctrl0]) | LEGACY_CTRL_CAL_SUB_SYS)]
    {
      SetCtrl(rf, LEGACY_CTRL_CAL_SUB_SYS);
      status := 0;
    }

    /** Clears ctrl0 bit 0. */
    method DisableCalSubSys()
      requires Valid()
      modifies rf
      ensures Valid()
      ensures rf.regs == old(rf.regs)[Ctrl0 := rf.After(Ctrl0, old(rf.regs[Ctrl0]) & !LEGACY_CTRL_CAL_SUB_SYS)]
    {
      ClearCtrl(rf, LEGACY_CTRL_CAL_SUB_SYS);
    }

    /** Sets ctrl0 bit 1; -1 and nothing written when the probe found no performance monitor. */
    method EnablePmCnt() returns (status: int)
      requires Valid()
      modifies rf
      ensures Valid()
      ensures status == -1 <==> !prop.caps.performanceMonitorSupported
      ensures status == -1 ==> rf.regs == old(rf.regs)
      ensures status == 0 || status == -1
      ensures status == 0 ==> rf.regs == old(rf.regs)[Ctrl0 := rf.After(Ctrl0, old(rf.regs[Ctrl0]) | LEGACY_CTRL_PM)]
    {
      if !prop.caps.performanceMonitorSupported {
        return -1;
      }
      SetCtrl(rf, LEGACY_CTRL_PM);
      status := 0;
    }

    /** Clears ctrl0 bit 1. */
    method DisablePmCnt()
      requires Valid()
      modifies rf
      ensures Valid()
      ensures rf.regs == old(rf.regs)[Ctrl0 := rf.After(Ctrl0, old(rf.regs[Ctrl0]) & !LEGACY_CTRL_PM)]
    {
      ClearCtrl(rf, LEGACY_CTRL_PM);
    }

    /**
     * start: -1 unless ctrl0 bit 0 is set, -2 while busy, otherwise the
     * three start bits are set in ctrl0.
     */
    method Start() returns (status: int)
      requires Valid()
      modifies rf
      ensures Valid()
      ensures status == LegacyStartStatus(old(rf.regs[Ctrl0]), old(rf.regs[Sts0]))
      ensures status != 0 ==> rf.regs == old(rf.regs)
      ensures status == 0 ==> rf.regs == old(rf.regs)[Ctrl0 := rf.After(Ctrl0, old(rf.regs[Ctrl0]) | LEGACY_CTRL_START)]
    {
      var pre := rf.Load(Ctrl0);
      if pre & LEGACY_CTRL_CAL_SUB_SYS == 0 {
        return -1;
      }
      var busy := IsBusy();
      if busy {
        return -2;
      }
      rf.Store(Ctrl0, pre | LEGACY_CTRL_START);
      status := 0;
    }

    /** is_busy: busy unless all three idle flags of sts0 are set. */
    method IsBusy() returns (busy: bool)
      requires Valid()
      ensures busy == Busy(rf.regs[Sts0])
    {
      var sts0 := rf.Load(Sts0);
      busy := sts0 & 7 != 7;
    }

    /**
     * cfg: the result code of the legacy configuration compiler; on success
     * every word of its image is written, on failure nothing is.
     */
    method Cfg(c: LayerCfg) returns (status: int)
      requires Valid()
      requires LegacyCompile(prop, rf.regs[Sts0], c) != Undefined
      modifies rf
      ensures Valid()
      ensures var r := LegacyCompile(prop, old(rf.regs[Sts0]), c);
        && (status == 0 <==> r.Ok?)
        && (r.Fail? ==> status == r.code && rf.regs == old(rf.regs))
        && (r.Ok? ==> rf.regs == LegacyWritten(old(rf.regs), rf, r.value))
    {
      var sts0 := rf.Load(Sts0);
      var r := LegacyCompile(prop, sts0, c);
      status := Commit(r);
    }

    /** Returns the failure code of a rejected configuration, or writes the image of an accepted one. */
    method Commit(r: Outcome<LegacyConvImage>) returns (status: int)
      requires Valid()
      requires r != Undefined
      modifies rf
      ensures Valid()
      ensures r.Ok? ==> status == 0
      ensures r.Fail? ==> status == r.code && rf.regs == old(rf.regs)
      ensures r.Ok? ==> rf.regs == LegacyWritten(old(rf.regs), rf, r.value)
    {
      match r
      case Fail(code) =>
        return code;
      case Ok(img) =>
        WriteImage(img);
        status := 0;
    }

    /** Stores every word of a legacy register image, in the order the configuration routine writes them. */
    method WriteImage(img: LegacyConvImage)
      requires Valid()
      modifies rf
      ensures Valid()
      ensures rf.regs == LegacyWritten(old(rf.regs), rf, img)
    {
      rf.Store(CalCfg, img.layer.calCfg);
      rf.Store(GrpConv0, img.layer.grpConv0);
      rf.Store(GrpConv1, img.grpConv1);
      WriteFmapKrn(rf, img.layer);
      WriteBuf(rf, img.layer);
    }

    /** get_cmd_fns_n: the completed-command counter of the queried DMA channel. */
    method GetCmdFnsN(q: CmdFnsQuery) returns (n: bv32)
      requires Valid()
      ensures n == rf.regs[match q case QueryMm2s0 => Sts1 case QueryMm2s1 => Sts2 case QueryS2mm => Sts3]
    {
      match q
      case QueryMm2s0 => n := rf.Load(Sts1);
      case QueryMm2s1 => n := rf.Load(Sts2);
      case QueryS2mm => n := rf.Load(Sts3);
    }

    /** clr_cmd_fns_n: writes zero to the selected counters, or to all three. */
    method ClrCmdFnsN(t: CmdFnsClear) returns (status: int)
      requires Valid()
      modifies rf
      ensures Valid() && status == 0
      ensures rf.regs == ClearedCounters(old(rf.regs), rf, t)
    {
      if t == ClearMm2s0 || t == ClearAll {
        rf.Store(Sts1, 0);
      }
      if t == ClearMm2s1 || t == ClearAll {
        rf.Store(Sts2, 0);
      }
      if t == ClearS2mm || t == ClearAll {
        rf.Store(Sts3, 0);
      }
      status := 0;
    }

    /** get_pm_cnt: sts4, read whether or not a performance monitor was found. */
    method GetPmCnt() returns (cycles: bv32)
      requires Valid()
      ensures cycles == rf.regs[Sts4]
    {
      cycles := rf.Load(Sts4);
    }

    /** clr_pm_cnt: -1 without a performance monitor, otherwise zero is written to sts4. */
    method ClrPmCnt() returns (status: int)
      requires Valid()
      modifies rf
      ensures Valid()
      ensures status == -1 <==> !prop.caps.performanceMonitorSupported
      ensures status == -1 ==> rf.regs == old(rf.regs)
      ensures status == 0 || status == -1
      ensures status == 0 ==> rf.regs == old(rf.regs)[Sts4 := rf.After(Sts4, 0)]
    {
      if !prop.caps.performanceMonitorSupported {
        return -1;
      }
      rf.Store(Sts4, 0);
      status := 0;
    }
  }

  /**
   * After the legacy init the writable bits of ctrl0 hold what they held
   * before, except bit 0, which is cleared whenever it is writable: a start
   * straight after init then returns -1.
   */
  lemma LegacyInitDisablesCalSubSys(regs: map<ConvReg, bv32>, rf: RegFile<ConvReg>, sts0: bv32)
    requires forall r :: r in regs
    ensures LegacyProbedRegs(regs, rf)[Ctrl0] & rf.writable(Ctrl0) & !LEGACY_CTRL_CAL_SUB_SYS
         == regs[Ctrl0] & rf.writable(Ctrl0) & !LEGACY_CTRL_CAL_SUB_SYS
    ensures rf.writable(Ctrl0) & LEGACY_CTRL_CAL_SUB_SYS != 0 ==>
      LegacyStartStatus(LegacyProbedRegs(regs, rf)[Ctrl0], sts0) == -1
  {
    var m := CapsProbedRegs(regs, rf);
    assert m[Ctrl0] == rf.After(Ctrl0, regs[Ctrl0]);
  }

  /**
   * The legacy init stores only to the probed registers and ctrl0: the
   * batch-normalisation and activation registers, the status counters and
   * the other configuration registers keep their values.
   */
  lemma LegacyInitFrame(regs: map<ConvReg, bv32>, rf: RegFile<ConvReg>)
    requires forall r :: r in regs
    ensures forall r: ConvReg ::
              !(r.CalCfg? || r.GrpConv0? || r.FmapCfg4? || r.KrnCfg1? || r.Ctrl0?) ==> LegacyProbedRegs(regs, rf)[r] == regs[r]
  {
    CapsProbesFrame(regs, rf);
  }

  /** The registers a successful legacy configuration stores to. */
  predicate LegacyWrittenByCfg(r: ConvReg)
  {
    || r.CalCfg? || r.GrpConv0? || r.GrpConv1? || FmapKrnReg(r)
    || r.BufCfg0? || r.BufCfg1? || r.BufCfg2? || r.BufCfg3?
  }

  /**
   * A successful legacy configuration stores only to the calculation,
   * group, feature-map, kernel and buffer registers; in particular it
   * leaves bn_cfg and the activation registers alone.
   */
  lemma LegacyCfgWritesOnlyConfiguration(regs: map<ConvReg, bv32>, rf: RegFile<ConvReg>, img: LegacyConvImage)
    requires forall r :: r in regs
    ensures forall r :: !LegacyWrittenByCfg(r) ==> LegacyWritten(regs, rf, img)[r] == regs[r]
  {
    LegacyGroupFrame(regs, rf, img);
    var m := LegacyGroupWritten(regs, rf, img);
    FmapKrnFrame(m, rf, img.layer);
    BufFrame(FmapKrnWritten(m, rf, img.layer), rf, img.layer);
  }

  lemma LegacyGroupFrame(regs: map<ConvReg, bv32>, rf: RegFile<ConvReg>, img: LegacyConvImage)
    requires forall r :: r in regs
    ensures forall r :: r in LegacyGroupWritten(regs, rf, img)
    ensures forall r: ConvReg ::
              !(r.CalCfg? || r.GrpConv0? || r.GrpConv1?) ==> LegacyGroupWritten(regs, rf, img)[r] == regs[r]
  {
  }
}
