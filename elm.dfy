/**
 * The element-wise processing accelerator driver as a handler object over
 * its register region: initialisation (identity check, capability words
 * and the unit and performance-monitor probes), the enable bits of ctrl0,
 * start with its buffer words, the functional-unit configuration, and the
 * command and performance counters.
 */
module Elm {
  import opened Bits
  import opened Registers
  import opened Ident
  import opened ElmTypes
  import opened ElmPlan

  /** The ctrl0 bits: the accelerator, the data hub and processing core (two bits), the cycle counter. */
  const CTRL0_ENABLE: bv32 := 1
  const CTRL0_HUB_AND_CORE: bv32 := 6
  const CTRL0_CYCLE_N_CNT: bv32 := 8

  /** Whether bit k of a word is set. */
  predicate Flag(w: bv32, k: bv32)
    requires k < 32
  {
    w & (1 << k) != 0
  }

  /** The fourteen capability flags of info1, bits 8 to 21 in order. */
  function CapsOf(info1: bv32): ElmCaps
  {
    ElmCaps(Flag(info1, 8), Flag(info1, 9), Flag(info1, 10), Flag(info1, 11), Flag(info1, 12),
            Flag(info1, 13), Flag(info1, 14), Flag(info1, 15), Flag(info1, 16), Flag(info1, 17),
            Flag(info1, 18), Flag(info1, 19), Flag(info1, 20), Flag(info1, 21))
  }

  /** The units a readback of fu_bypass_cfg reports: unit k exists when bypass bit k reads back clear. */
  function UnitsOf(bypass: bv32): ElmUnits
  {
    ElmUnits(bypass & 1 == 0, bypass & 2 == 0, bypass & 4 == 0, bypass & 8 == 0, bypass & 0x10 == 0)
  }

  /**
   * The properties init records: the identity, the stream widths of info0
   * and the pipeline depth of info1 truncated to their properties' widths,
   * the capability flags of info1, the units found by writing zero to
   * fu_bypass_cfg, and the monitor found by writing its bit to ctrl0.
   */
  function ElmProbedProp(ident: DeviceIdent, info0: bv32, info1: bv32,
                         writable: ElmReg -> bv32, tied: ElmReg -> bv32): (p: ElmProp)
    ensures p.ident == ident
    ensures p.caps == CapsOf(info1)
  {
    ElmProp(
      ident := ident,
      mm2sStreamDataWidth := Raw16(info0 & 0xFFFF),
      s2mmStreamDataWidth := Raw16((info0 >> 16) & 0xFFFF),
      pipelineN := Raw8(info1 & 0xFF),
      units := UnitsOf(Readback(writable(FuBypassCfg), tied(FuBypassCfg), 0)),
      performanceMonitorSupported := BitSet(Readback(writable(Ctrl0), tied(Ctrl0), CTRL0_CYCLE_N_CNT), CTRL0_CYCLE_N_CNT),
      caps := CapsOf(info1))
  }

  /** The region after init: fu_bypass_cfg keeps its probe (zero) and ctrl0 is overwritten with zero. */
  function ElmProbedRegs(regs: map<ElmReg, bv32>, rf: RegFile<ElmReg>): map<ElmReg, bv32>
  {
    regs[FuBypassCfg := rf.After(FuBypassCfg, 0)][Ctrl0 := rf.After(Ctrl0, 0)]
  }

  /**
   * The region after a successful start: the operand X base and length,
   * the operand A/B base and length only when that buffer is used, the
   * result base and length, then ctrl1.
   */
  function StartWritten(regs: map<ElmReg, bv32>, rf: RegFile<ElmReg>, b: ElmBufCfg, useOpAOrB: U8): map<ElmReg, bv32>
  {
    BuffersWritten(regs, rf, b, useOpAOrB)[Ctrl1 := rf.After(Ctrl1, Ctrl1Word(useOpAOrB))]
  }

  /** The buffer words of start, in the order it writes them. */
  function BuffersWritten(regs: map<ElmReg, bv32>, rf: RegFile<ElmReg>, b: ElmBufCfg, useOpAOrB: U8): map<ElmReg, bv32>
  {
    ResultWritten(OperandABWritten(OperandXWritten(regs, rf, b), rf, b, useOpAOrB), rf, b)
  }

  function OperandXWritten(regs: map<ElmReg, bv32>, rf: RegFile<ElmReg>, b: ElmBufCfg): map<ElmReg, bv32>
  {
    regs[BufCfg0 := rf.After(BufCfg0, b.opXBufBaseaddr)][BufCfg3 := rf.After(BufCfg3, b.opXBufLen)]
  }

  function OperandABWritten(regs: map<ElmReg, bv32>, rf: RegFile<ElmReg>, b: ElmBufCfg, useOpAOrB: U8): map<ElmReg, bv32>
  {
    if useOpAOrB != 0 then regs[BufCfg1 := rf.After(BufCfg1, b.opABBufBaseaddr)][BufCfg4 := rf.After(BufCfg4, b.opABBufLen)]
    else regs
  }

  function ResultWritten(regs: map<ElmReg, bv32>, rf: RegFile<ElmReg>, b: ElmBufCfg): map<ElmReg, bv32>
  {
    regs[BufCfg2 := rf.After(BufCfg2, b.resBufBaseaddr)][BufCfg5 := rf.After(BufCfg5, b.resBufLen)]
  }

  /**
   * The region after a successful cfg: the format, precision and operand
   * flag words, the constant operands that are present, then
   * fu_bypass_cfg.
   */
  function CfgWritten(regs: map<ElmReg, bv32>, rf: RegFile<ElmReg>, img: ElmImage): map<ElmReg, bv32>
  {
    OperandsWritten(WordsWritten(regs, rf, img), rf, img)[FuBypassCfg := rf.After(FuBypassCfg, img.fuBypassCfg)]
  }

  /** fmt_cfg, fixed_point_cfg0, fixed_point_cfg1 and op_a_b_cfg0. */
  function WordsWritten(regs: map<ElmReg, bv32>, rf: RegFile<ElmReg>, img: ElmImage): map<ElmReg, bv32>
  {
    regs[FmtCfg := rf.After(FmtCfg, img.fmtCfg)]
        [FixedPointCfg0 := rf.After(FixedPointCfg0, img.fixedPointCfg0)]
        [FixedPointCfg1 := rf.After(FixedPointCfg1, img.fixedPointCfg1)]
        [OpABCfg0 := rf.After(OpABCfg0, img.opABCfg0)]
  }

  /** op_a_b_cfg1 and op_a_b_cfg2, each only when its operand is a constant. */
  function OperandsWritten(regs: map<ElmReg, bv32>, rf: RegFile<ElmReg>, img: ElmImage): map<ElmReg, bv32>
  {
    var a := if img.opA.Some? then regs[OpABCfg1 := rf.After(OpABCfg1, img.opA.value)] else regs;
    if img.opB.Some? then a[OpABCfg2 := rf.After(OpABCfg2, img.opB.value)] else a
  }

  /** The region after clr_cmd_fns_n with selector `t`. */
  function ClearedCmdCounters(regs: map<ElmReg, bv32>, rf: RegFile<ElmReg>, t: ElmCmdFnsClear): map<ElmReg, bv32>
  {
    var a := if t == ClearMm2s0 || t == ClearAll then regs[Sts0 := rf.After(Sts0, 0)] else regs;
    var b := if t == ClearMm2s1 || t == ClearAll then a[Sts1 := rf.After(Sts1, 0)] else a;
    if t == ClearS2mm || t == ClearAll then b[Sts2 := rf.After(Sts2, 0)] else b
  }

  /** The register get_cmd_fns_n reads for a query. */
  function CounterOf(q: ElmCmdFnsQuery): ElmReg
  {
    match q
    case QueryMm2s0 => Sts0
    case QueryMm2s1 => Sts1
    case QueryS2mm => Sts2
  }

  /** The properties recorded before init has run: no identity, no unit, no monitor, every capability absent. */
  function UnprobedElmProp(): (p: ElmProp)
    ensures !p.performanceMonitorSupported && !p.units.round
  {
    ElmProp(DeviceIdent([], [], 0), 0, 0, 0, ElmUnits(false, false, false, false, false), false,
            ElmCaps(false, false, false, false, false, false, false, false, false, false, false, false, false, false))
  }

  class ElmHandler {
    var prop: ElmProp
    const rf: RegFile<ElmReg>

    ghost predicate Valid()
      reads this, rf
    {
      rf.Valid()
    }

    /** A handler bound to a register region, before init. */
    constructor(rf: RegFile<ElmReg>)
      requires rf.Valid()
      ensures Valid()
      ensures this.rf == rf && prop == UnprobedElmProp()
    {
      this.rf := rf;
      prop := UnprobedElmProp();
    }

    /**
     * init: -1 and nothing touched unless the name register carries the
     * element-wise type code; otherwise the identity is decoded, the
     * properties are those the capability words and probes report,
     * fu_bypass_cfg keeps zero and ctrl0 is overwritten with zero.
     */
    method Init() returns (status: int)
      requires Valid()
      modifies this, rf
      ensures Valid()
      ensures status == 0 || status == -1
      ensures status == -1 <==> !IsDevice(old(rf.regs[AccName]), ELM_WISE_PROC_ACC_TYPE)
      ensures status == -1 ==> prop == old(prop) && rf.regs == old(rf.regs)
      ensures status == 0 ==> IdentDecodes(prop.ident, old(rf.regs[Version]), old(rf.regs[AccName]))
      ensures status == 0 ==> prop == ElmProbedProp(prop.ident, old(rf.regs[Info0]), old(rf.regs[Info1]), rf.writable, rf.tied)
      ensures status == 0 ==> rf.regs == ElmProbedRegs(old(rf.regs), rf)
    {
      var name := rf.Load(AccName);
      if !IsDevice(name, ELM_WISE_PROC_ACC_TYPE) {
        return -1;
      }
      var versionWord := rf.Load(Version);
      var ident := DecodeIdent(versionWord, name);
      var info0 := rf.Load(Info0);
      var info1 := rf.Load(Info1);
      prop := ProbeProp(ident, info0, info1);
      status := 0;
    }

    /** The capability words combined with the unit probe and then the performance-monitor probe. */
    method ProbeProp(ident: DeviceIdent, info0: bv32, info1: bv32) returns (p: ElmProp)
      requires Valid()
      modifies rf
      ensures Valid()
      ensures p == ElmProbedProp(ident, info0, info1, rf.writable, rf.tied)
      ensures rf.regs == ElmProbedRegs(old(rf.regs), rf)
    {
      var units := ProbeUnits();
      var pm := ProbePerfMon();
      p := ElmProp(ident, Raw16(info0 & 0xFFFF), Raw16((info0 >> 16) & 0xFFFF), Raw8(info1 & 0xFF),
                   units, pm, CapsOf(info1));
    }

    /** The unit probe: zero written to fu_bypass_cfg, each unit present when its bit reads back clear. */
    method ProbeUnits() returns (units: ElmUnits)
      requires Valid()
      modifies rf
      ensures Valid()
      ensures rf.regs == old(rf.regs)[FuBypassCfg := rf.After(FuBypassCfg, 0)]
      ensures units == UnitsOf(rf.After(FuBypassCfg, 0))
    {
      rf.Store(FuBypassCfg, 0);
      var v := rf.Load(FuBypassCfg);
      units := ElmUnits(v & 1 == 0, v & 2 == 0, v & 4 == 0, v & 8 == 0, v & 0x10 == 0);
    }

    /** The performance-monitor probe: ctrl0 overwritten with its bit alone, read back, then overwritten with zero. */
    method ProbePerfMon() returns (pm: bool)
      requires Valid()
      modifies rf
      ensures Valid()
      ensures rf.regs == old(rf.regs)[Ctrl0 := rf.After(Ctrl0, 0)]
      ensures pm == BitSet(rf.After(Ctrl0, CTRL0_CYCLE_N_CNT), CTRL0_CYCLE_N_CNT)
    {
      ghost var m := rf.regs;
      rf.Store(Ctrl0, CTRL0_CYCLE_N_CNT);
      var v := rf.Load(Ctrl0);
      pm := BitSet(v, CTRL0_CYCLE_N_CNT);
      rf.Store(Ctrl0, 0);
      StoreTwice(m, Ctrl0, rf.After(Ctrl0, CTRL0_CYCLE_N_CNT), rf.After(Ctrl0, 0));
    }

    /** Sets the accelerator enable bit of ctrl0. */
    method Enable() returns (status: int)
      requires Valid()
      modifies rf
      ensures Valid() && status == 0
      ensures rf.regs == old(rf.regs)[Ctrl0 := rf.After(Ctrl0, old(rf.regs[Ctrl0]) | CTRL0_ENABLE)]
    {
      var pre := rf.Load(Ctrl0);
      rf.Store(Ctrl0, pre | CTRL0_ENABLE);
      status := 0;
    }

    /** Clears the accelerator enable bit of ctrl0. */
    method Disable()
      requires Valid()
      modifies rf
      ensures Valid()
      ensures rf.regs == old(rf.regs)[Ctrl0 := rf.After(Ctrl0, old(rf.regs[Ctrl0]) & !CTRL0_ENABLE)]
    {
      var pre := rf.Load(Ctrl0);
      rf.Store(Ctrl0, pre & !CTRL0_ENABLE);
    }

    /** Sets the data-hub and processing-core enable bits of ctrl0. */
    method EnableDataHubAndProcCore() returns (status: int)
      requires Valid()
      modifies rf
      ensures Valid() && status == 0
      ensures rf.regs == old(rf.regs)[Ctrl0 := rf.After(Ctrl0, old(rf.regs[Ctrl0]) | CTRL0_HUB_AND_CORE)]
    {
      var pre := rf.Load(Ctrl0);
      rf.Store(Ctrl0, pre | CTRL0_HUB_AND_CORE);
      status := 0;
    }

    /** Clears the data-hub and processing-core enable bits of ctrl0. */
    method DisableDataHubAndProcCore()
      requires Valid()
      modifies rf
      ensures Valid()
      ensures rf.regs == old(rf.regs)[Ctrl0 := rf.After(Ctrl0, old(rf.regs[Ctrl0]) & !CTRL0_HUB_AND_CORE)]
    {
      var pre := rf.Load(Ctrl0);
      rf.Store(Ctrl0, pre & !CTRL0_HUB_AND_CORE);
    }

    /** Sets the cycle-counter bit of ctrl0; -1 and nothing written when the probe found no monitor. */
    method EnableCycleNCnt() returns (status: int)
      requires Valid()
      modifies rf
      ensures Valid()
      ensures status == 0 || status == -1
      ensures status == -1 <==> !prop.performanceMonitorSupported
      ensures status == -1 ==> rf.regs == old(rf.regs)
      ensures status == 0 ==> rf.regs == old(rf.regs)[Ctrl0 := rf.After(Ctrl0, old(rf.regs[Ctrl0]) | CTRL0_CYCLE_N_CNT)]
    {
      if !prop.performanceMonitorSupported {
        return -1;
      }
      var pre := rf.Load(Ctrl0);
      rf.Store(Ctrl0, pre | CTRL0_CYCLE_N_CNT);
      status := 0;
    }

    /** Clears the cycle-counter bit of ctrl0, whether or not a monitor was found. */
    method DisableCycleNCnt()
      requires Valid()
      modifies rf
      ensures Valid()
      ensures rf.regs == old(rf.regs)[Ctrl0 := rf.After(Ctrl0, old(rf.regs[Ctrl0]) & !CTRL0_CYCLE_N_CNT)]
    {
      var pre := rf.Load(Ctrl0);
      rf.Store(Ctrl0, pre & !CTRL0_CYCLE_N_CNT);
    }

    /**
     * start: the status of ElmStartStatus from ctrl0, ctrl1 and the
     * buffer lengths; nothing is written on failure, and on success the
     * buffer words and then ctrl1.
     */
    method Start(b: ElmBufCfg, useOpAOrB: U8) returns (status: int)
      requires Valid()
      modifies rf
      ensures Valid()
      ensures status == ElmStartStatus(old(rf.regs[Ctrl0]), old(rf.regs[Ctrl1]), b, useOpAOrB)
      ensures status != 0 ==> rf.regs == old(rf.regs)
      ensures status == 0 ==> rf.regs == StartWritten(old(rf.regs), rf, b, useOpAOrB)
    {
      var ctrl1 := rf.Load(Ctrl1);
      if ctrl1 & 7 != 0 {
        return -1;
      }
      var ctrl0 := rf.Load(Ctrl0);
      if ctrl0 & 7 != 7 {
        return -2;
      }
      if b.opXBufLen & LEN_HIGH_BYTE != 0 || (useOpAOrB != 0 && b.opABBufLen & LEN_HIGH_BYTE != 0)
         || b.resBufLen & LEN_HIGH_BYTE != 0 {
        return -3;
      }
      WriteBuffers(b, useOpAOrB);
      rf.Store(Ctrl1, 1 | (if useOpAOrB != 0 then 2 else 0) | 4);
      status := 0;
    }

    /** The buffer stores of start: operand X, operand A/B when used, result. */
    method WriteBuffers(b: ElmBufCfg, useOpAOrB: U8)
      requires Valid()
      modifies rf
      ensures Valid()
      ensures rf.regs == BuffersWritten(old(rf.regs), rf, b, useOpAOrB)
    {
      rf.Store(BufCfg0, b.opXBufBaseaddr);
      rf.Store(BufCfg3, b.opXBufLen);
      if useOpAOrB != 0 {
        rf.Store(BufCfg1, b.opABBufBaseaddr);
        rf.Store(BufCfg4, b.opABBufLen);
      }
      rf.Store(BufCfg2, b.resBufBaseaddr);
      rf.Store(BufCfg5, b.resBufLen);
    }

    /**
     * cfg: the result code of ElmCompile; on success every word of its
     * image is written, on failure nothing is.
     */
    method Cfg(c: ElmFuCfg) returns (status: int)
      requires Valid()
      modifies rf
      ensures Valid()
      ensures var r := ElmCompile(prop.units, c);
        && (status == 0 <==> r.Ok?)
        && (r.Fail? ==> status == r.code && rf.regs == old(rf.regs))
        && (r.Ok? ==> rf.regs == CfgWritten(old(rf.regs), rf, r.value))
    {
      var r := ElmCompile(prop.units, c);
      match r
      case Fail(code) =>
        return code;
      case Ok(img) =>
        WriteImage(img);
        status := 0;
    }

    /** Stores every word of a functional-unit image, in the order cfg writes them. */
    method WriteImage(img: ElmImage)
      requires Valid()
      modifies rf
      ensures Valid()
      ensures rf.regs == CfgWritten(old(rf.regs), rf, img)
    {
      rf.Store(FmtCfg, img.fmtCfg);
      rf.Store(FixedPointCfg0, img.fixedPointCfg0);
      rf.Store(FixedPointCfg1, img.fixedPointCfg1);
      rf.Store(OpABCfg0, img.opABCfg0);
      if img.opA.Some? {
        rf.Store(OpABCfg1, img.opA.value);
      }
      if img.opB.Some? {
        rf.Store(OpABCfg2, img.opB.value);
      }
      rf.Store(FuBypassCfg, img.fuBypassCfg);
    }

    /** get_cmd_fns_n: the completed-command counter of the queried DMA channel, sts0, sts1 or sts2. */
    method GetCmdFnsN(q: ElmCmdFnsQuery) returns (n: bv32)
      requires Valid()
      ensures n == rf.regs[CounterOf(q)]
    {
      match q
      case QueryMm2s0 => n := rf.Load(Sts0);
      case QueryMm2s1 => n := rf.Load(Sts1);
      case QueryS2mm => n := rf.Load(Sts2);
    }

    /** clr_cmd_fns_n: writes zero to the selected counter, or to all three. */
    method ClrCmdFnsN(t: ElmCmdFnsClear) returns (status: int)
      requires Valid()
      modifies rf
      ensures Valid() && status == 0
      ensures rf.regs == ClearedCmdCounters(old(rf.regs), rf, t)
    {
      if t == ClearMm2s0 || t == ClearAll {
        rf.Store(Sts0, 0);
      }
      if t == ClearMm2s1 || t == ClearAll {
        rf.Store(Sts1, 0);
      }
      if t == ClearS2mm || t == ClearAll {
        rf.Store(Sts2, 0);
      }
      status := 0;
    }

    /** get_pm_cnt: -1 and no count without a performance monitor, otherwise the cycle counter sts3. */
    method GetPmCnt() returns (status: int, cycleN: Option<bv32>)
      requires Valid()
      ensures status == 0 || status == -1
      ensures status == -1 <==> !prop.performanceMonitorSupported
      ensures status == -1 ==> cycleN == None
      ensures status == 0 ==> cycleN == Some(rf.regs[Sts3])
    {
      if !prop.performanceMonitorSupported {
        return -1, None;
      }
      var n := rf.Load(Sts3);
      status, cycleN := 0, Some(n);
    }

    /** clr_pm_cnt: -1 without a performance monitor, otherwise zero is written to sts3. */
    method ClrPmCnt() returns (status: int)
      requires Valid()
      modifies rf
      ensures Valid()
      ensures status == 0 || status == -1
      ensures status == -1 <==> !prop.performanceMonitorSupported
      ensures status == -1 ==> rf.regs == old(rf.regs)
      ensures status == 0 ==> rf.regs == old(rf.regs)[Sts3 := rf.After(Sts3, 0)]
    {
      if !prop.performanceMonitorSupported {
        return -1;
      }
      rf.Store(Sts3, 0);
      status := 0;
    }
  }

  /**
   * What the probes of init report: a unit is present unless its bypass
   * bit is tied high, and the monitor is found when its ctrl0 bit latches
   * or is tied high.
   */
  lemma UnitAndMonitorProbesMeaning(ident: DeviceIdent, info0: bv32, info1: bv32,
                                    writable: ElmReg -> bv32, tied: ElmReg -> bv32)
    ensures var p := ElmProbedProp(ident, info0, info1, writable, tied);
      var stuck := tied(FuBypassCfg) & !writable(FuBypassCfg);
      && (p.units.inDataCvt <==> stuck & 1 == 0)
      && (p.units.pow2 <==> stuck & 2 == 0)
      && (p.units.mac <==> stuck & 4 == 0)
      && (p.units.outDataCvt <==> stuck & 8 == 0)
      && (p.units.round <==> stuck & 0x10 == 0)
      && (p.performanceMonitorSupported <==> (writable(Ctrl0) | tied(Ctrl0)) & CTRL0_CYCLE_N_CNT != 0)
  {
  }

  /** The capability flags packed back into the fourteen bits they came from. */
  function CapsBits(k: ElmCaps): bv32
  {
    StreamCapsBits(k) | (FormatCapsBits(k) << 6)
  }

  /** The six stream-width flags, bits 8 to 13 of info1. */
  function StreamCapsBits(k: ElmCaps): bv32
  {
    (if k.inStreamWidth1B then 1 else 0) | (if k.inStreamWidth2B then 2 else 0)
      | (if k.inStreamWidth4B then 4 else 0) | (if k.outStreamWidth1B then 8 else 0)
      | (if k.outStreamWidth2B then 0x10 else 0) | (if k.outStreamWidth4B then 0x20 else 0)
  }

  /** The eight conversion, calculation-format and rounding flags, bits 14 to 21 of info1. */
  function FormatCapsBits(k: ElmCaps): bv32
  {
    (if k.inDataCvtFp16ToFp32 then 1 else 0) | (if k.inDataCvtIntToFp32 then 2 else 0)
      | (if k.calFmtS16 then 4 else 0) | (if k.calFmtS32 then 8 else 0)
      | (if k.calFmtFp32 then 0x10 else 0) | (if k.outDataCvtFp32ToS33 then 0x20 else 0)
      | (if k.roundS33 then 0x40 else 0) | (if k.roundFp32 then 0x80 else 0)
  }

  lemma StreamCapsDecode(info1: bv32)
    ensures StreamCapsBits(CapsOf(info1)) == (info1 >> 8) & 0x3F
  {
  }

  lemma FormatCapsDecode(info1: bv32)
    ensures FormatCapsBits(CapsOf(info1)) == (info1 >> 14) & 0xFF
  {
  }

  lemma CapsFieldsJoin(w: bv32)
    ensures ((w >> 8) & 0x3F) | (((w >> 14) & 0xFF) << 6) == (w >> 8) & 0x3FFF
  {
  }

  /** The capability flags are exactly bits 8 to 21 of info1: packing them back gives that field. */
  lemma CapsOfDecodes(info1: bv32)
    ensures CapsBits(CapsOf(info1)) == (info1 >> 8) & 0x3FFF
  {
    StreamCapsDecode(info1);
    FormatCapsDecode(info1);
    CapsFieldsJoin(info1);
  }

  /**
   * The unit probe and fu_bypass_cfg speak the same language: on a device
   * whose bypass bits all latch, the units init finds from the readback of
   * a configuration's bypass word are exactly the units it uses.
   */
  lemma BypassWordReadsBackUsedUnits(rf: RegFile<ElmReg>, used: ElmUnits)
    requires rf.writable(FuBypassCfg) & 0x1F == 0x1F
    ensures UnitsOf(rf.After(FuBypassCfg, FuBypassWord(used))) == used
  {
    FuBypassDecodes(used);
  }

  /** The registers the probes of init store to. */
  predicate ProbedByInit(r: ElmReg)
  {
    r.FuBypassCfg? || r.Ctrl0?
  }

  /**
   * Init leaves every unit un-bypassed and ctrl0 zero in every writable
   * bit, so the accelerator, the data hub, the core and the cycle counter
   * are all disabled; no other register is touched.
   */
  lemma InitLeavesProbePatterns(regs: map<ElmReg, bv32>, rf: RegFile<ElmReg>)
    ensures var m := ElmProbedRegs(regs, rf);
      && m[FuBypassCfg] & rf.writable(FuBypassCfg) == 0
      && m[Ctrl0] & rf.writable(Ctrl0) == 0
    ensures forall r: ElmReg :: !ProbedByInit(r) && r in regs ==> ElmProbedRegs(regs, rf)[r] == regs[r]
  {
  }

  /** After init, start fails (with -1 or -2) unless the three enable bits of ctrl0 are all tied high. */
  lemma InitBlocksStart(regs: map<ElmReg, bv32>, rf: RegFile<ElmReg>, ctrl1: bv32, b: ElmBufCfg, useOpAOrB: U8)
    requires rf.tied(Ctrl0) & !rf.writable(Ctrl0) & 7 != 7
    ensures ElmStartStatus(ElmProbedRegs(regs, rf)[Ctrl0], ctrl1, b, useOpAOrB) != 0
  {
    assert ElmProbedRegs(regs, rf)[Ctrl0] == rf.After(Ctrl0, 0);
  }

  /**
   * Enabling the accelerator and then the data hub and core, on a device
   * whose three enable bits latch, passes start's enable check whatever
   * ctrl0 held before; disabling either afterwards fails it.
   */
  lemma EnablesPassStartCheck(rf: RegFile<ElmReg>, ctrl0: bv32)
    requires rf.writable(Ctrl0) & 7 == 7
    ensures var on := rf.After(Ctrl0, rf.After(Ctrl0, ctrl0 | CTRL0_ENABLE) | CTRL0_HUB_AND_CORE);
      && on & 7 == 7
      && rf.After(Ctrl0, on & !CTRL0_ENABLE) & 7 != 7
      && rf.After(Ctrl0, on & !CTRL0_HUB_AND_CORE) & 7 != 7
  {
  }

  /** The registers a successful start stores to: the operand A/B buffer words only when that buffer is used. */
  predicate WrittenByStart(useOpAOrB: U8, r: ElmReg)
  {
    || r.BufCfg0? || r.BufCfg3? || r.BufCfg2? || r.BufCfg5? || r.Ctrl1?
    || (useOpAOrB != 0 && (r.BufCfg1? || r.BufCfg4?))
  }

  /**
   * A successful start writes the buffer bases and lengths it uses and the
   * ctrl1 word that starts their channels, and stores nowhere else.
   */
  lemma StartWritesBuffers(regs: map<ElmReg, bv32>, rf: RegFile<ElmReg>, b: ElmBufCfg, useOpAOrB: U8)
    requires forall r: ElmReg :: r in regs
    ensures var m := StartWritten(regs, rf, b, useOpAOrB);
      && m[BufCfg0] == rf.After(BufCfg0, b.opXBufBaseaddr) && m[BufCfg3] == rf.After(BufCfg3, b.opXBufLen)
      && m[BufCfg2] == rf.After(BufCfg2, b.resBufBaseaddr) && m[BufCfg5] == rf.After(BufCfg5, b.resBufLen)
      && (useOpAOrB != 0 ==> m[BufCfg1] == rf.After(BufCfg1, b.opABBufBaseaddr) && m[BufCfg4] == rf.After(BufCfg4, b.opABBufLen))
      && m[Ctrl1] == rf.After(Ctrl1, Ctrl1Word(useOpAOrB))
    ensures forall r: ElmReg :: !WrittenByStart(useOpAOrB, r) ==> StartWritten(regs, rf, b, useOpAOrB)[r] == regs[r]
  {
    OperandXFrame(regs, rf, b);
    var x := OperandXWritten(regs, rf, b);
    OperandABFrame(x, rf, b, useOpAOrB);
    ResultFrame(OperandABWritten(x, rf, b, useOpAOrB), rf, b);
  }

  lemma OperandXFrame(regs: map<ElmReg, bv32>, rf: RegFile<ElmReg>, b: ElmBufCfg)
    requires forall r: ElmReg :: r in regs
    ensures forall r: ElmReg :: r in OperandXWritten(regs, rf, b)
    ensures OperandXWritten(regs, rf, b)[BufCfg0] == rf.After(BufCfg0, b.opXBufBaseaddr)
    ensures OperandXWritten(regs, rf, b)[BufCfg3] == rf.After(BufCfg3, b.opXBufLen)
    ensures forall r: ElmReg :: !(r.BufCfg0? || r.BufCfg3?) ==> OperandXWritten(regs, rf, b)[r] == regs[r]
  {
  }

  lemma OperandABFrame(regs: map<ElmReg, bv32>, rf: RegFile<ElmReg>, b: ElmBufCfg, useOpAOrB: U8)
    requires forall r: ElmReg :: r in regs
    ensures forall r: ElmReg :: r in OperandABWritten(regs, rf, b, useOpAOrB)
    ensures useOpAOrB != 0 ==> OperandABWritten(regs, rf, b, useOpAOrB)[BufCfg1] == rf.After(BufCfg1, b.opABBufBaseaddr)
    ensures useOpAOrB != 0 ==> OperandABWritten(regs, rf, b, useOpAOrB)[BufCfg4] == rf.After(BufCfg4, b.opABBufLen)
    ensures forall r: ElmReg :: !(useOpAOrB != 0 && (r.BufCfg1? || r.BufCfg4?)) ==> OperandABWritten(regs, rf, b, useOpAOrB)[r] == regs[r]
  {
  }

  lemma ResultFrame(regs: map<ElmReg, bv32>, rf: RegFile<ElmReg>, b: ElmBufCfg)
    requires forall r: ElmReg :: r in regs
    ensures forall r: ElmReg :: r in ResultWritten(regs, rf, b)
    ensures ResultWritten(regs, rf, b)[BufCfg2] == rf.After(BufCfg2, b.resBufBaseaddr)
    ensures ResultWritten(regs, rf, b)[BufCfg5] == rf.After(BufCfg5, b.resBufLen)
    ensures forall r: ElmReg :: !(r.BufCfg2? || r.BufCfg5?) ==> ResultWritten(regs, rf, b)[r] == regs[r]
  {
  }

  /** The registers a successful cfg stores to: op_a_b_cfg1 and op_a_b_cfg2 only for constant operands. */
  predicate WrittenByCfg(img: ElmImage, r: ElmReg)
  {
    || r.FmtCfg? || r.FixedPointCfg0? || r.FixedPointCfg1? || r.OpABCfg0? || r.FuBypassCfg?
    || (img.opA.Some? && r.OpABCfg1?) || (img.opB.Some? && r.OpABCfg2?)
  }

  /**
   * Storing an image writes each of its words, a constant operand exactly
   * when the image carries one, and stores nowhere else.
   */
  lemma CfgWrittenMeaning(regs: map<ElmReg, bv32>, rf: RegFile<ElmReg>, img: ElmImage)
    requires forall r: ElmReg :: r in regs
    ensures var m := CfgWritten(regs, rf, img);
      && m[FmtCfg] == rf.After(FmtCfg, img.fmtCfg)
      && m[FixedPointCfg0] == rf.After(FixedPointCfg0, img.fixedPointCfg0)
      && m[FixedPointCfg1] == rf.After(FixedPointCfg1, img.fixedPointCfg1)
      && m[OpABCfg0] == rf.After(OpABCfg0, img.opABCfg0)
      && m[FuBypassCfg] == rf.After(FuBypassCfg, img.fuBypassCfg)
      && (img.opA.Some? ==> m[OpABCfg1] == rf.After(OpABCfg1, img.opA.value))
      && (img.opB.Some? ==> m[OpABCfg2] == rf.After(OpABCfg2, img.opB.value))
    ensures forall r: ElmReg :: !WrittenByCfg(img, r) ==> CfgWritten(regs, rf, img)[r] == regs[r]
  {
    WordsFrame(regs, rf, img);
    var w := WordsWritten(regs, rf, img);
    OperandsFrame(w, rf, img);
  }

  lemma WordsFrame(regs: map<ElmReg, bv32>, rf: RegFile<ElmReg>, img: ElmImage)
    requires forall r: ElmReg :: r in regs
    ensures forall r: ElmReg :: r in WordsWritten(regs, rf, img)
    ensures var m := WordsWritten(regs, rf, img);
      && m[FmtCfg] == rf.After(FmtCfg, img.fmtCfg)
      && m[FixedPointCfg0] == rf.After(FixedPointCfg0, img.fixedPointCfg0)
      && m[FixedPointCfg1] == rf.After(FixedPointCfg1, img.fixedPointCfg1)
      && m[OpABCfg0] == rf.After(OpABCfg0, img.opABCfg0)
    ensures forall r: ElmReg :: !(r.FmtCfg? || r.FixedPointCfg0? || r.FixedPointCfg1? || r.OpABCfg0?) ==>
      WordsWritten(regs, rf, img)[r] == regs[r]
  {
  }

  lemma OperandsFrame(regs: map<ElmReg, bv32>, rf: RegFile<ElmReg>, img: ElmImage)
    requires forall r: ElmReg :: r in regs
    ensures forall r: ElmReg :: r in OperandsWritten(regs, rf, img)
    ensures img.opA.Some? ==> OperandsWritten(regs, rf, img)[OpABCfg1] == rf.After(OpABCfg1, img.opA.value)
    ensures img.opB.Some? ==> OperandsWritten(regs, rf, img)[OpABCfg2] == rf.After(OpABCfg2, img.opB.value)
    ensures forall r: ElmReg :: !((img.opA.Some? && r.OpABCfg1?) || (img.opB.Some? && r.OpABCfg2?)) ==>
      OperandsWritten(regs, rf, img)[r] == regs[r]
  {
  }

  /**
   * A successful cfg writes the words built from its configuration, stores
   * a constant operand exactly when the configuration marks it constant,
   * and leaves the register of a non-constant operand alone.
   */
  lemma CfgWritesImage(regs: map<ElmReg, bv32>, rf: RegFile<ElmReg>, exist: ElmUnits, c: ElmFuCfg)
    requires forall r: ElmReg :: r in regs
    requires ElmCompile(exist, c).Ok?
    ensures var m := CfgWritten(regs, rf, ElmCompile(exist, c).value);
      && m[FmtCfg] == rf.After(FmtCfg, FmtCfgWord(c))
      && m[FixedPointCfg0] == rf.After(FixedPointCfg0, FixedPointCfg0Word(c))
      && m[FixedPointCfg1] == rf.After(FixedPointCfg1, FixedPointCfg1Word(c))
      && m[OpABCfg0] == rf.After(OpABCfg0, OpABCfg0Word(c))
      && m[FuBypassCfg] == rf.After(FuBypassCfg, FuBypassWord(c.Used()))
      && (c.isOpAConst != 0 ==> m[OpABCfg1] == rf.After(OpABCfg1, c.opAConstVal))
      && (c.isOpBConst != 0 ==> m[OpABCfg2] == rf.After(OpABCfg2, c.opBConstVal))
      && (c.isOpAConst == 0 ==> m[OpABCfg1] == regs[OpABCfg1])
      && (c.isOpBConst == 0 ==> m[OpABCfg2] == regs[OpABCfg2])
  {
    var img := ElmImageOf(c);
    assert ElmCompile(exist, c).value == img;
    assert c.isOpAConst == 0 ==> !WrittenByCfg(img, OpABCfg1);
    assert c.isOpBConst == 0 ==> !WrittenByCfg(img, OpABCfg2);
    CfgWrittenMeaning(regs, rf, img);
  }

  /** clr_cmd_fns_n clears exactly the selected counters and nothing else. */
  lemma ClearedCmdCountersMeaning(regs: map<ElmReg, bv32>, rf: RegFile<ElmReg>, t: ElmCmdFnsClear)
    requires forall r: ElmReg :: r in regs
    ensures var m := ClearedCmdCounters(regs, rf, t);
      && m[Sts0] == (if t.ClearMm2s0? || t.ClearAll? then rf.After(Sts0, 0) else regs[Sts0])
      && m[Sts1] == (if t.ClearMm2s1? || t.ClearAll? then rf.After(Sts1, 0) else regs[Sts1])
      && m[Sts2] == (if t.ClearS2mm? || t.ClearAll? then rf.After(Sts2, 0) else regs[Sts2])
      && forall r: ElmReg :: !(r.Sts0? || r.Sts1? || r.Sts2?) ==> m[r] == regs[r]
  {
  }
}
