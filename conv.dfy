/**
 * The current convolution driver revision as a handler object over its
 * register region: initialisation (identity check, property decoding and
 * capability probes), the control bits of ctrl0, start and the busy test,
 * configuration, and the command and performance counters.
 */
module Conv {
  import opened Bits
  import opened Registers
  import opened Ident
  import opened ConvTypes
  import opened ConvProbe
  import opened ConvLayer
  import opened ConvPlan

  /** The ctrl0 bits: enable, calculation subsystem, performance monitor, BN/activation unit, start. */
  const CTRL_ENABLE: bv32 := 1
  const CTRL_CAL_SUB_SYS: bv32 := 2
  const CTRL_PM: bv32 := 4
  const CTRL_BN_ACT: bv32 := 8
  const CTRL_START: bv32 := 0x700

  /** The DMA command counters get_cmd_fns_n can query. */
  datatype CmdFnsQuery = QueryMm2s0 | QueryMm2s1 | QueryS2mm

  /** The DMA command counters clr_cmd_fns_n can clear. */
  datatype CmdFnsClear = ClearMm2s0 | ClearMm2s1 | ClearS2mm | ClearAll

  /**
   * The properties init records: the limits of info0 to info5 and the
   * readback probes, the batch-normalisation and activation probes included.
   */
  function ProbedProp(ident: DeviceIdent, info0: bv32, info1: bv32, info2: bv32, info3: bv32, info4: bv32, info5: bv32,
                      ctrl0: bv32, writable: ConvReg -> bv32, tied: ConvReg -> bv32): (p: ConvProp)
    ensures p.InRange()
    ensures p.ident == ident
  {
    ConvProp(
      ident := ident,
      caps := ProbedCaps(info0, info1, info2, info3, ctrl0, CTRL_PM, writable, tied),
      bnSupported := BitSet(Readback(writable(BnCfg), tied(BnCfg), 1), 1),
      leakyReluSupported := FieldIs(Readback(writable(ActCfg0), tied(ActCfg0), ActLeakyRelu.Code()), 0, 7, ActLeakyRelu.Code()),
      sigmoidSupported := FieldIs(Readback(writable(ActCfg0), tied(ActCfg0), ActSigmoid.Code()), 0, 7, ActSigmoid.Code()),
      tanhSupported := FieldIs(Readback(writable(ActCfg0), tied(ActCfg0), ActTanh.Code()), 0, 7, ActTanh.Code()),
      bnActPrlN := Limit8(info4 & 0xFF),
      maxKernalN := Limit16((info4 >> 16) & 0xFFFF),
      midResBufClkRate := (info5 & 0xF) as nat)
  }

  /** The region after the batch-normalisation and activation probes: bn_cfg cleared again, act_cfg0 left at tanh. */
  function BnActProbedRegs(regs: map<ConvReg, bv32>, rf: RegFile<ConvReg>): (m: map<ConvReg, bv32>)
    requires forall r :: r in regs
    ensures forall r :: r in m
    ensures m[Ctrl0] == regs[Ctrl0]
    ensures m[Info5] == regs[Info5]
  {
    regs[BnCfg := rf.After(BnCfg, 0)][ActCfg0 := rf.After(ActCfg0, ActTanh.Code())]
  }

  /** The region after init: the probes in order, then ctrl0 with its calculation-subsystem bit cleared. */
  function ProbedRegs(regs: map<ConvReg, bv32>, rf: RegFile<ConvReg>): map<ConvReg, bv32>
    requires forall r :: r in regs
  {
    var m := BnActProbedRegs(CapsProbedRegs(regs, rf), rf);
    m[Ctrl0 := rf.After(Ctrl0, m[Ctrl0] & !CTRL_CAL_SUB_SYS)]
  }

  /**
   * The region after a successful configuration: every word of the image
   * stored in the order the routine writes them, grp_conv1 and act_cfg1
   * only when the image carries them.
   */
  function Written(regs: map<ConvReg, bv32>, rf: RegFile<ConvReg>, img: ConvImage): map<ConvReg, bv32>
  {
    BnActWritten(BufWritten(FmapKrnWritten(GroupWritten(regs, rf, img), rf, img.layer), rf, img.layer), rf, img)
  }

  /** cal_cfg, grp_conv0 and, with groups, grp_conv1. */
  function GroupWritten(regs: map<ConvReg, bv32>, rf: RegFile<ConvReg>, img: ConvImage): map<ConvReg, bv32>
  {
    var m := regs[CalCfg := rf.After(CalCfg, img.layer.calCfg)][GrpConv0 := rf.After(GrpConv0, img.layer.grpConv0)];
    if img.grpConv1.Some? then m[GrpConv1 := rf.After(GrpConv1, img.grpConv1.value)] else m
  }

  /** fmap_cfg0 to fmap_cfg5 and krn_cfg0 to krn_cfg3. */
  function FmapKrnWritten(regs: map<ConvReg, bv32>, rf: RegFile<ConvReg>, l: LayerImage): map<ConvReg, bv32>
  {
    regs[FmapCfg0 := rf.After(FmapCfg0, l.fmapCfg0)]
        [FmapCfg1 := rf.After(FmapCfg1, l.fmapCfg1)]
        [FmapCfg2 := rf.After(FmapCfg2, l.fmapCfg2)]
        [FmapCfg3 := rf.After(FmapCfg3, l.fmapCfg3)]
        [FmapCfg4 := rf.After(FmapCfg4, l.fmapCfg4)]
        [FmapCfg5 := rf.After(FmapCfg5, l.fmapCfg5)]
        [KrnCfg0 := rf.After(KrnCfg0, l.krnCfg0)]
        [KrnCfg1 := rf.After(KrnCfg1, l.krnCfg1)]
        [KrnCfg2 := rf.After(KrnCfg2, l.krnCfg2)]
        [KrnCfg3 := rf.After(KrnCfg3, l.krnCfg3)]
  }

  /** buf_cfg0 to buf_cfg3. */
  function BufWritten(regs: map<ConvReg, bv32>, rf: RegFile<ConvReg>, l: LayerImage): map<ConvReg, bv32>
  {
    regs[BufCfg0 := rf.After(BufCfg0, l.bufCfg0)]
        [BufCfg1 := rf.After(BufCfg1, l.bufCfg1)]
        [BufCfg2 := rf.After(BufCfg2, l.bufCfg2)]
        [BufCfg3 := rf.After(BufCfg3, l.bufCfg3)]
  }

  /** bn_cfg, act_cfg0 and, with leaky ReLU, act_cfg1. */
  function BnActWritten(regs: map<ConvReg, bv32>, rf: RegFile<ConvReg>, img: ConvImage): map<ConvReg, bv32>
  {
    var m := regs[BnCfg := rf.After(BnCfg, img.bnCfg)][ActCfg0 := rf.After(ActCfg0, img.actCfg0)];
    if img.actCfg1.Some? then m[ActCfg1 := rf.After(ActCfg1, img.actCfg1.value)] else m
  }

  /** The result of start: -1 unless the calculation subsystem is enabled, -2 while busy. */
  function StartStatus(ctrl0: bv32, sts0: bv32): (s: int)
    ensures s == 0 <==> ctrl0 & CTRL_CAL_SUB_SYS != 0 && !Busy(sts0)
    ensures s == -1 <==> ctrl0 & CTRL_CAL_SUB_SYS == 0
    ensures s == -2 <==> ctrl0 & CTRL_CAL_SUB_SYS != 0 && Busy(sts0)
  {
    if ctrl0 & CTRL_CAL_SUB_SYS == 0 then -1
    else if Busy(sts0) then -2
    else 0
  }

  /** The properties recorded before init has run: no identity, every capability absent. */
  function UnprobedProp(): (p: ConvProp)
    ensures p.InRange()
  {
    ConvProp(DeviceIdent([], [], 0),
             ConvCaps(false, false, false, false, false, false, false, false, false, false,
                      0, 0, 0, 0, 0, 0, 0, 0, 0, 0),
             false, false, false, false, 0, 0, 0)
  }

  class ConvHandler {
    var prop: ConvProp
    const rf: RegFile<ConvReg>

    ghost predicate Valid()
      reads this, rf
    {
      rf.Valid() && prop.InRange()
    }

    /** A handler bound to a register region, before init. */
    constructor(rf: RegFile<ConvReg>)
      requires rf.Valid()
      ensures Valid()
      ensures this.rf == rf && prop == UnprobedProp()
    {
      this.rf := rf;
      prop := UnprobedProp();
    }

    /**
     * init: -1 and nothing touched unless the name register carries the
     * convolution type code; otherwise the identity is decoded, the
     * properties are those the probes report, and the probed registers
     * keep their probe readbacks.
     */
    method Init() returns (status: int)
      requires Valid()
      modifies this, rf
      ensures Valid()
      ensures status == 0 || status == -1
      ensures status == -1 <==> !IsDevice(old(rf.regs[AccName]), CONV_ACC_TYPE)
      ensures status == -1 ==> prop == old(prop) && rf.regs == old(rf.regs)
      ensures status == 0 ==> IdentDecodes(prop.ident, old(rf.regs[Version]), old(rf.regs[AccName]))
      ensures status == 0 ==> prop == ProbedProp(prop.ident, old(rf.regs[Info0]), old(rf.regs[Info1]), old(rf.regs[Info2]),
                                                 old(rf.regs[Info3]), old(rf.regs[Info4]), old(rf.regs[Info5]),
                                                 old(rf.regs[Ctrl0]), rf.writable, rf.tied)
      ensures status == 0 ==> rf.regs == ProbedRegs(old(rf.regs), rf)
    {
      var name := rf.Load(AccName);
      if !IsDevice(name, CONV_ACC_TYPE) {
        return -1;
      }
      var versionWord := rf.Load(Version);
      var ident := DecodeIdent(versionWord, name);
      var info0 := rf.Load(Info0);
      var info1 := rf.Load(Info1);
      var info2 := rf.Load(Info2);
      var info3 := rf.Load(Info3);
      var info4 := rf.Load(Info4);
      prop := ProbeProp(ident, info0, info1, info2, info3, info4);
      status := 0;
    }

    /**
     * Every capability probe in the order init runs them, combined with the
     * limits of info0 to info4 as read before probing and of info5 as read
     * after.
     */
    method ProbeProp(ident: DeviceIdent, info0: bv32, info1: bv32, info2: bv32, info3: bv32, info4: bv32) returns (p: ConvProp)
      requires Valid()
      modifies rf
      ensures Valid()
      ensures p == ProbedProp(ident, info0, info1, info2, info3, info4, old(rf.regs[Info5]), old(rf.regs[Ctrl0]),
                              rf.writable, rf.tied)
      ensures rf.regs == ProbedRegs(old(rf.regs), rf)
    {
      var caps := ProbeCaps(rf, info0, info1, info2, info3, CTRL_PM);
      var bn, leaky, sigmoid, tanh := ProbeBnAct();
      DisableCalSubSys();
      var info5 := rf.Load(Info5);
      p := ConvProp(ident, caps, bn, leaky, sigmoid, tanh,
                    Limit8(info4 & 0xFF), Limit16((info4 >> 16) & 0xFFFF), (info5 & 0xF) as nat);
    }

    /** The batch-normalisation probe (bn_cfg cleared afterwards) and the activation probes. */
    method ProbeBnAct() returns (bn: bool, leaky: bool, sigmoid: bool, tanh: bool)
      requires Valid()
      modifies rf
      ensures Valid()
      ensures rf.regs == BnActProbedRegs(old(rf.regs), rf)
      ensures bn == BitSet(rf.After(BnCfg, 1), 1)
      ensures leaky == FieldIs(rf.After(ActCfg0, ActLeakyRelu.Code()), 0, 7, ActLeakyRelu.Code())
      ensures sigmoid == FieldIs(rf.After(ActCfg0, ActSigmoid.Code()), 0, 7, ActSigmoid.Code())
      ensures tanh == FieldIs(rf.After(ActCfg0, ActTanh.Code()), 0, 7, ActTanh.Code())
    {
      var v: bv32;
      ghost var m0 := rf.regs;
      rf.Store(BnCfg, 1);
      v := rf.Load(BnCfg);
      bn := BitSet(v, 1);
      rf.Store(BnCfg, 0);
      StoreTwice(m0, BnCfg, rf.After(BnCfg, 1), rf.After(BnCfg, 0));
      ghost var m1 := rf.regs;
      rf.Store(ActCfg0, ActLeakyRelu.Code());
      v := rf.Load(ActCfg0);
      leaky := FieldIs(v, 0, 7, ActLeakyRelu.Code());
      rf.Store(ActCfg0, ActSigmoid.Code());
      StoreTwice(m1, ActCfg0, rf.After(ActCfg0, ActLeakyRelu.Code()), rf.After(ActCfg0, ActSigmoid.Code()));
      v := rf.Load(ActCfg0);
      sigmoid := FieldIs(v, 0, 7, ActSigmoid.Code());
      rf.Store(ActCfg0, ActTanh.Code());
      StoreTwice(m1, ActCfg0, rf.After(ActCfg0, ActSigmoid.Code()), rf.After(ActCfg0, ActTanh.Code()));
      v := rf.Load(ActCfg0);
      tanh := FieldIs(v, 0, 7, ActTanh.Code());
    }

    /** Sets the accelerator enable bit of ctrl0. */
    method Enable() returns (status: int)
      requires Valid()
      modifies rf
      ensures Valid() && status == 0
      ensures rf.regs == old(rf.regs)[Ctrl0 := rf.After(Ctrl0, old(rf.regs[Ctrl0]) | CTRL_ENABLE)]
    {
      SetCtrl(rf, CTRL_ENABLE);
      status := 0;
    }

    /** Clears the accelerator enable bit of ctrl0. */
    method Disable()
      requires Valid()
      modifies rf
      ensures Valid()
      ensures rf.regs == old(rf.regs)[Ctrl0 := rf.After(Ctrl0, old(rf.regs[Ctrl0]) & !CTRL_ENABLE)]
    {
      ClearCtrl(rf, CTRL_ENABLE);
    }

    /** Sets the calculation-subsystem enable bit of ctrl0. */
    method EnableCalSubSys() returns (status: int)
      requires Valid()
      modifies rf
      ensures Valid() && status == 0
      ensures rf.regs == old(rf.regs)[Ctrl0 := rf.After(Ctrl0, old(rf.regs[Ctrl0]) | CTRL_CAL_SUB_SYS)]
    {
      SetCtrl(rf, CTRL_CAL_SUB_SYS);
      status := 0;
    }

    /** Clears the calculation-subsystem enable bit of ctrl0. */
    method DisableCalSubSys()
      requires Valid()
      modifies rf
      ensures Valid()
      ensures rf.regs == old(rf.regs)[Ctrl0 := rf.After(Ctrl0, old(rf.regs[Ctrl0]) & !CTRL_CAL_SUB_SYS)]
    {
      ClearCtrl(rf, CTRL_CAL_SUB_SYS);
    }

    /** Sets the performance-monitor bit of ctrl0; -1 and nothing written when the probe found none. */
    method EnablePmCnt() returns (status: int)
      requires Valid()
      modifies rf
      ensures Valid()
      ensures status == -1 <==> !prop.caps.performanceMonitorSupported
      ensures status == -1 ==> rf.regs == old(rf.regs)
      ensures status == 0 || status == -1
      ensures status == 0 ==> rf.regs == old(rf.regs)[Ctrl0 := rf.After(Ctrl0, old(rf.regs[Ctrl0]) | CTRL_PM)]
    {
      if !prop.caps.performanceMonitorSupported {
        return -1;
      }
      SetCtrl(rf, CTRL_PM);
      status := 0;
    }

    /** Clears the performance-monitor bit of ctrl0. */
    method DisablePmCnt()
      requires Valid()
      modifies rf
      ensures Valid()
      ensures rf.regs == old(rf.regs)[Ctrl0 := rf.After(Ctrl0, old(rf.regs[Ctrl0]) & !CTRL_PM)]
    {
      ClearCtrl(rf, CTRL_PM);
    }

    /** Sets the batch-normalisation and activation enable bit of ctrl0. */
    method EnableBnActProc() returns (status: int)
      requires Valid()
      modifies rf
      ensures Valid() && status == 0
      ensures rf.regs == old(rf.regs)[Ctrl0 := rf.After(Ctrl0, old(rf.regs[Ctrl0]) | CTRL_BN_ACT)]
    {
      SetCtrl(rf, CTRL_BN_ACT);
      status := 0;
    }

    /** Clears the batch-normalisation and activation enable bit of ctrl0. */
    method DisableBnActProc()
      requires Valid()
      modifies rf
      ensures Valid()
      ensures rf.regs == old(rf.regs)[Ctrl0 := rf.After(Ctrl0, old(rf.regs[Ctrl0]) & !CTRL_BN_ACT)]
    {
      ClearCtrl(rf, CTRL_BN_ACT);
    }

    /**
     * start: -1 unless the calculation subsystem is enabled, -2 while busy,
     * otherwise the three start bits are set in ctrl0.
     */
    method Start() returns (status: int)
      requires Valid()
      modifies rf
      ensures Valid()
      ensures status == StartStatus(old(rf.regs[Ctrl0]), old(rf.regs[Sts0]))
      ensures status != 0 ==> rf.regs == old(rf.regs)
      ensures status == 0 ==> rf.regs == old(rf.regs)[Ctrl0 := rf.After(Ctrl0, old(rf.regs[Ctrl0]) | CTRL_START)]
    {
      var pre := rf.Load(Ctrl0);
      if pre & CTRL_CAL_SUB_SYS == 0 {
        return -1;
      }
      var busy := IsBusy();
      if busy {
        return -2;
      }
      rf.Store(Ctrl0, pre | CTRL_START);
      status := 0;
    }

    /** is_busy: busy unless all three idle flags of sts0 are set. */
    method IsBusy() returns (busy: bool)
      requires Valid()
      ensures busy == Busy(rf.regs[Sts0])
    {
      var sts0 := rf.Load(Sts0);
      busy := sts0 & 7 != 7;
    }

    /**
     * cfg: the result code of the configuration compiler; on success every
     * word of its image is written, on failure nothing is.
     */
    method Cfg(c: ConvCfg) returns (status: int)
      requires Valid()
      requires Compile(prop, rf.regs[Sts0], c) != Undefined
      modifies rf
      ensures Valid()
      ensures var r := Compile(prop, old(rf.regs[Sts0]), c);
        && (status == 0 <==> r.Ok?)
        && (r.Fail? ==> status == r.code && rf.regs == old(rf.regs))
        && (r.Ok? ==> rf.regs == Written(old(rf.regs), rf, r.value))
    {
      var sts0 := rf.Load(Sts0);
      var r := Compile(prop, sts0, c);
      status := Commit(r);
    }

    /** Returns the failure code of a rejected configuration, or writes the image of an accepted one. */
    method Commit(r: Outcome<ConvImage>) returns (status: int)
      requires Valid()
      requires r != Undefined
      modifies rf
      ensures Valid()
      ensures r.Ok? ==> status == 0
      ensures r.Fail? ==> status == r.code && rf.regs == old(rf.regs)
      ensures r.Ok? ==> rf.regs == Written(old(rf.regs), rf, r.value)
    {
      match r
      case Fail(code) =>
        return code;
      case Ok(img) =>
        WriteImage(img);
        status := 0;
    }

    /** Stores every word of a register image, in the order the configuration routine writes them. */
    method WriteImage(img: ConvImage)
      requires Valid()
      modifies rf
      ensures Valid()
      ensures rf.regs == Written(old(rf.regs), rf, img)
    {
      WriteGroup(img);
      WriteFmapKrn(rf, img.layer);
      WriteBuf(rf, img.layer);
      WriteBnAct(img);
    }

    method WriteGroup(img: ConvImage)
      requires Valid()
      modifies rf
      ensures Valid()
      ensures rf.regs == GroupWritten(old(rf.regs), rf, img)
    {
      rf.Store(CalCfg, img.layer.calCfg);
      rf.Store(GrpConv0, img.layer.grpConv0);
      if img.grpConv1.Some? {
        rf.Store(GrpConv1, img.grpConv1.value);
      }
    }

    method WriteBnAct(img: ConvImage)
      requires Valid()
      modifies rf
      ensures Valid()
      ensures rf.regs == BnActWritten(old(rf.regs), rf, img)
    {
      rf.Store(BnCfg, img.bnCfg);
      rf.Store(ActCfg0, img.actCfg0);
      if img.actCfg1.Some? {
        rf.Store(ActCfg1, img.actCfg1.value);
      }
    }

    /** get_cmd_fns_n: the completed-command counter of the queried DMA channel. */
    method GetCmdFnsN(q: CmdFnsQuery) returns (n: bv32)
      requires Valid()
      ensures n == rf.regs[match q case QueryMm2s0 => Sts1 case QueryMm2s1 => Sts2 case QueryS2mm => Sts3]
    {
      match q
      case QueryMm2s0 => n := rf.Load(Sts1);
      case QueryMm2s1 => n := rf.Load(Sts2);
      case QueryS2mm => n := rf.Load(Sts3);
    }

    /** clr_cmd_fns_n: writes zero to the selected counters, or to all three. */
    method ClrCmdFnsN(t: CmdFnsClear) returns (status: int)
      requires Valid()
      modifies rf
      ensures Valid() && status == 0
      ensures rf.regs == ClearedCounters(old(rf.regs), rf, t)
    {
      if t == ClearMm2s0 || t == ClearAll {
        rf.Store(Sts1, 0);
      }
      if t == ClearMm2s1 || t == ClearAll {
        rf.Store(Sts2, 0);
      }
      if t == ClearS2mm || t == ClearAll {
        rf.Store(Sts3, 0);
      }
      status := 0;
    }

    /** get_pm_cnt: -1 without a performance monitor, otherwise the five counters of sts4 to sts8. */
    method GetPmCnt() returns (status: int, pm: ConvPerfMonSts)
      requires Valid()
      ensures status == -1 <==> !prop.caps.performanceMonitorSupported
      ensures status == 0 || status == -1
      ensures status == 0 ==> pm == ConvPerfMonSts(rf.regs[Sts4], rf.regs[Sts5], rf.regs[Sts6], rf.regs[Sts7], rf.regs[Sts8])
    {
      pm := ConvPerfMonSts(0, 0, 0, 0, 0);
      if !prop.caps.performanceMonitorSupported {
        return -1, pm;
      }
      var cycles := rf.Load(Sts4);
      var mm2s0 := rf.Load(Sts5);
      var mm2s1 := rf.Load(Sts6);
      var s2mm := rf.Load(Sts7);
      var sfc := rf.Load(Sts8);
      pm := ConvPerfMonSts(cycles, mm2s0, mm2s1, s2mm, sfc);
      status := 0;
    }

    /** clr_pm_cnt: -1 without a performance monitor, otherwise zero is written to sts4 to sts7. */
    method ClrPmCnt() returns (status: int)
      requires Valid()
      modifies rf
      ensures Valid()
      ensures status == -1 <==> !prop.caps.performanceMonitorSupported
      ensures status == -1 ==> rf.regs == old(rf.regs)
      ensures status == 0 || status == -1
      ensures status == 0 ==> rf.regs == old(rf.regs)[Sts4 := rf.After(Sts4, 0)][Sts5 := rf.After(Sts5, 0)]
                               [Sts6 := rf.After(Sts6, 0)][Sts7 := rf.After(Sts7, 0)]
    {
      if !prop.caps.performanceMonitorSupported {
        return -1;
      }
      rf.Store(Sts4, 0);
      rf.Store(Sts5, 0);
      rf.Store(Sts6, 0);
      rf.Store(Sts7, 0);
      status := 0;
    }
  }

  /** Read-modify-write of ctrl0 setting `bits`. */
  method SetCtrl(rf: RegFile<ConvReg>, bits: bv32)
    requires rf.Valid()
    modifies rf
    ensures rf.Valid()
    ensures rf.regs == old(rf.regs)[Ctrl0 := rf.After(Ctrl0, old(rf.regs[Ctrl0]) | bits)]
  {
    var pre := rf.Load(Ctrl0);
    rf.Store(Ctrl0, pre | bits);
  }

  /** Read-modify-write of ctrl0 clearing `bits`. */
  method ClearCtrl(rf: RegFile<ConvReg>, bits: bv32)
    requires rf.Valid()
    modifies rf
    ensures rf.Valid()
    ensures rf.regs == old(rf.regs)[Ctrl0 := rf.After(Ctrl0, old(rf.regs[Ctrl0]) & !bits)]
  {
    var pre := rf.Load(Ctrl0);
    rf.Store(Ctrl0, pre & !bits);
  }

  /** Stores fmap_cfg0 to fmap_cfg5 and krn_cfg0 to krn_cfg3. */
  method WriteFmapKrn(rf: RegFile<ConvReg>, l: LayerImage)
    requires rf.Valid()
    modifies rf
    ensures rf.Valid()
    ensures rf.regs == FmapKrnWritten(old(rf.regs), rf, l)
  {
    rf.Store(FmapCfg0, l.fmapCfg0);
    rf.Store(FmapCfg1, l.fmapCfg1);
    rf.Store(FmapCfg2, l.fmapCfg2);
    rf.Store(FmapCfg3, l.fmapCfg3);
    rf.Store(FmapCfg4, l.fmapCfg4);
    rf.Store(FmapCfg5, l.fmapCfg5);
    rf.Store(KrnCfg0, l.krnCfg0);
    rf.Store(KrnCfg1, l.krnCfg1);
    rf.Store(KrnCfg2, l.krnCfg2);
    rf.Store(KrnCfg3, l.krnCfg3);
  }

  /** Stores buf_cfg0 to buf_cfg3. */
  method WriteBuf(rf: RegFile<ConvReg>, l: LayerImage)
    requires rf.Valid()
    modifies rf
    ensures rf.Valid()
    ensures rf.regs == BufWritten(old(rf.regs), rf, l)
  {
    rf.Store(BufCfg0, l.bufCfg0);
    rf.Store(BufCfg1, l.bufCfg1);
    rf.Store(BufCfg2, l.bufCfg2);
    rf.Store(BufCfg3, l.bufCfg3);
  }

  /** The region after clr_cmd_fns_n with selector `t`. */
  function ClearedCounters(regs: map<ConvReg, bv32>, rf: RegFile<ConvReg>, t: CmdFnsClear): map<ConvReg, bv32>
  {
    var a := if t == ClearMm2s0 || t == ClearAll then regs[Sts1 := rf.After(Sts1, 0)] else regs;
    var b := if t == ClearMm2s1 || t == ClearAll then a[Sts2 := rf.After(Sts2, 0)] else a;
    if t == ClearS2mm || t == ClearAll then b[Sts3 := rf.After(Sts3, 0)] else b
  }

  /**
   * What the batch-normalisation and activation probes report: bn_cfg bit
   * 0 must latch or be tied high, and an activation code must survive the
   * readback of the 3-bit act_cfg0 field.
   */
  lemma BnActProbesMeaning(ident: DeviceIdent, info0: bv32, info1: bv32, info2: bv32, info3: bv32, info4: bv32,
                           info5: bv32, ctrl0: bv32, writable: ConvReg -> bv32, tied: ConvReg -> bv32)
    ensures var p := ProbedProp(ident, info0, info1, info2, info3, info4, info5, ctrl0, writable, tied);
      var high := writable(ActCfg0) | tied(ActCfg0);
      var stuck := tied(ActCfg0) & !writable(ActCfg0);
      && (p.bnSupported <==> (writable(BnCfg) | tied(BnCfg)) & 1 == 1)
      && (p.leakyReluSupported <==> high & 1 == 1 && stuck & 6 == 0)
      && (p.sigmoidSupported <==> high & 2 == 2 && stuck & 5 == 0)
      && (p.tanhSupported <==> high & 3 == 3 && stuck & 4 == 0)
  {
  }

  /** The registers the probes of init store to. */
  predicate ProbedByInit(r: ConvReg)
  {
    r.CalCfg? || r.GrpConv0? || r.FmapCfg4? || r.KrnCfg1? || r.Ctrl0? || r.BnCfg? || r.ActCfg0?
  }

  /**
   * Only ctrl0 and bn_cfg are put back after probing: cal_cfg, grp_conv0,
   * fmap_cfg4, krn_cfg1 and act_cfg0 keep the readback of their last probe
   * pattern, and no other register is touched.
   */
  lemma InitLeavesProbePatterns(regs: map<ConvReg, bv32>, rf: RegFile<ConvReg>)
    requires forall r :: r in regs
    ensures var m := ProbedRegs(regs, rf);
      && m[CalCfg] == rf.After(CalCfg, 7 << 11)
      && m[GrpConv0] == rf.After(GrpConv0, 1)
      && m[FmapCfg4] == rf.After(FmapCfg4, 7 << 6)
      && m[KrnCfg1] == rf.After(KrnCfg1, 15 << 4)
      && m[BnCfg] == rf.After(BnCfg, 0)
      && m[ActCfg0] == rf.After(ActCfg0, ActTanh.Code())
    ensures forall r :: !ProbedByInit(r) ==> ProbedRegs(regs, rf)[r] == regs[r]
  {
    CapsProbesFrame(regs, rf);
    BnActProbesFrame(CapsProbedRegs(regs, rf), rf);
  }

  lemma BnActProbesFrame(regs: map<ConvReg, bv32>, rf: RegFile<ConvReg>)
    requires forall r :: r in regs
    ensures var m := BnActProbedRegs(regs, rf);
      m[BnCfg] == rf.After(BnCfg, 0) && m[ActCfg0] == rf.After(ActCfg0, ActTanh.Code())
    ensures forall r: ConvReg :: !(r.BnCfg? || r.ActCfg0?) ==> BnActProbedRegs(regs, rf)[r] == regs[r]
  {
  }

  /**
   * After init the writable bits of ctrl0 hold what they held before,
   * except the calculation-subsystem bit, which is cleared whenever it is
   * writable: a start straight after init then returns -1.
   */
  lemma InitDisablesCalSubSys(regs: map<ConvReg, bv32>, rf: RegFile<ConvReg>, sts0: bv32)
    requires forall r :: r in regs
    ensures ProbedRegs(regs, rf)[Ctrl0] & rf.writable(Ctrl0) & !CTRL_CAL_SUB_SYS
         == regs[Ctrl0] & rf.writable(Ctrl0) & !CTRL_CAL_SUB_SYS
    ensures rf.writable(Ctrl0) & CTRL_CAL_SUB_SYS != 0 ==> StartStatus(ProbedRegs(regs, rf)[Ctrl0], sts0) == -1
  {
    var m := BnActProbedRegs(CapsProbedRegs(regs, rf), rf);
    assert m[Ctrl0] == rf.After(Ctrl0, regs[Ctrl0]);
  }

  /** The feature-map and kernel configuration registers. */
  predicate FmapKrnReg(r: ConvReg)
  {
    || r.FmapCfg0? || r.FmapCfg1? || r.FmapCfg2? || r.FmapCfg3? || r.FmapCfg4? || r.FmapCfg5?
    || r.KrnCfg0? || r.KrnCfg1? || r.KrnCfg2? || r.KrnCfg3?
  }

  /** The registers a successful configuration stores to. */
  predicate WrittenByCfg(r: ConvReg)
  {
    || r.CalCfg? || r.GrpConv0? || r.GrpConv1? || FmapKrnReg(r)
    || r.BufCfg0? || r.BufCfg1? || r.BufCfg2? || r.BufCfg3?
    || r.BnCfg? || r.ActCfg0? || r.ActCfg1?
  }

  /**
   * A successful configuration stores only to the configuration registers:
   * ctrl0, the status counters and the information words keep their values.
   */
  lemma CfgWritesOnlyConfiguration(regs: map<ConvReg, bv32>, rf: RegFile<ConvReg>, img: ConvImage)
    requires forall r :: r in regs
    ensures forall r :: !WrittenByCfg(r) ==> Written(regs, rf, img)[r] == regs[r]
  {
    GroupFrame(regs, rf, img);
    var m1 := GroupWritten(regs, rf, img);
    FmapKrnFrame(m1, rf, img.layer);
    var m2 := FmapKrnWritten(m1, rf, img.layer);
    BufFrame(m2, rf, img.layer);
    BnActFrame(BufWritten(m2, rf, img.layer), rf, img);
  }

  lemma GroupFrame(regs: map<ConvReg, bv32>, rf: RegFile<ConvReg>, img: ConvImage)
    requires forall r :: r in regs
    ensures forall r :: r in GroupWritten(regs, rf, img)
    ensures forall r: ConvReg ::
              !(r.CalCfg? || r.GrpConv0? || r.GrpConv1?) ==> GroupWritten(regs, rf, img)[r] == regs[r]
  {
  }

  lemma FmapKrnFrame(regs: map<ConvReg, bv32>, rf: RegFile<ConvReg>, l: LayerImage)
    requires forall r :: r in regs
    ensures forall r :: r in FmapKrnWritten(regs, rf, l)
    ensures forall r: ConvReg ::
              !FmapKrnReg(r) ==> FmapKrnWritten(regs, rf, l)[r] == regs[r]
  {
  }

  lemma BufFrame(regs: map<ConvReg, bv32>, rf: RegFile<ConvReg>, l: LayerImage)
    requires forall r :: r in regs
    ensures forall r :: r in BufWritten(regs, rf, l)
    ensures forall r: ConvReg ::
              !(r.BufCfg0? || r.BufCfg1? || r.BufCfg2? || r.BufCfg3?) ==> BufWritten(regs, rf, l)[r] == regs[r]
  {
  }

  lemma BnActFrame(regs: map<ConvReg, bv32>, rf: RegFile<ConvReg>, img: ConvImage)
    requires forall r :: r in regs
    ensures forall r :: r in BnActWritten(regs, rf, img)
    ensures forall r: ConvReg ::
              !(r.BnCfg? || r.ActCfg0? || r.ActCfg1?) ==> BnActWritten(regs, rf, img)[r] == regs[r]
  {
  }
}
