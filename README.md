# Configuration compilers of the generic CNN accelerator drivers

This project models the C drivers of three AXI-attached accelerators of
the CnnAccelerator design: the generic convolution unit (the current
driver and its legacy revision), the generic pooling unit and the
element-wise processing unit. Each driver binds a handle to a block of
memory-mapped registers. It checks the identity word, decodes the version
and type strings, and records the device limits and the capabilities it
finds by writing test patterns and reading them back. It then turns layer
or operation requests into register words, starts the unit and reads its
counters.

The model has three layers.

- **Registers** (`registers.dfy`). A register region is a `RegFile` object
  holding a map from register names to 32-bit words. Each register has a
  mask of writable bits and a mask of bits tied high. A store keeps the
  writable bits of the stored word and the tied bits; this is
  `Registers.Readback`. Every readback probe of the drivers is stated
  through these two masks, so "the probe reports support" becomes an exact
  condition on the hardware.
- **Pure compilers** (`conv_layer.dfy`, `conv_plan.dfy`,
  `conv_legacy_plan.dfy`, `pool_plan.dfy`, `elm_plan.dfy`). Each
  configuration routine is a function from the recorded properties and
  the request to an `Outcome`:
  - `Ok(image)`: the register words to write;
  - `Fail(code)`: the driver's negative return code;
  - `Undefined`: the request reaches C undefined behaviour (a division by
    zero or a signed overflow) before the routine returns.

  Every derived quantity keeps the C width and wrap-around of its
  variable, written out with `W16`/`W32`, C's truncating `/` and `%`
  (`Bits.CQuot`, `Bits.CRem`), and the uint16 and uint32 promotions.
- **Handlers** (`conv.dfy`, `conv_legacy.dfy`, `pool.dfy`, `elm.dfy`).
  Each handler is a class with the recorded properties as a field and the
  register file as its region. Its methods perform the driver routines
  step by step and are proved against the layer above:
  - `Init` returns exactly the probed properties and leaves exactly the
    probed registers;
  - `Cfg` writes exactly the compiled image, or nothing when the request
    is rejected;
  - `Start` returns the start status function of the old control and
    status words.

The identity decoding in `ident.dfy` is shared by all drivers. The version
loop and the type loop are methods proved against ghost specifications of
the decoded strings.

## Model

| member | source | states |
|---|---|---|
| Bits.CQuot | axi_generic_pool/software/axi_generic_pool.c:284 | C's truncating quotient: for a nonnegative dividend the largest q >= 0 with q*b <= a; for a negative one the smallest q <= 0 with a <= q*b, so it rounds toward zero from either side |
| Bits.CRem | axi_generic_pool/software/axi_generic_pool.c:279 | C's remainder is zero exactly when the divisor divides the dividend, lies strictly between minus and plus the divisor, takes the dividend's sign, and completes C's division identity with `CQuot` |
| Bits.CeilDiv | axi_generic_conv/software/axi_generic_conv.c:501-511 | the rounded-up quotient the drivers compute as `a/b + (a%b ? 1:0)`: the least r with r*b >= a |
| Ident.DecodeVersion | axi_generic_conv/software/axi_generic_conv.c:77-82 | the version loop yields nine characters: for i below 8, '0' plus the i-th 4-bit digit of the version word, lowest first, with no early stop; then NUL at index 8 |
| Ident.DecodeAccType | axi_generic_conv/software/axi_generic_conv.c:84-93 | the type loop yields the six 5-bit letters of the name word ('a' plus the code, code 26 a terminator), and the id read from the shifted word is always 0 |
| Ident.DecodeIdent | axi_generic_conv/software/axi_generic_conv.c:77-93 | version string, type string and id decode from the version and name words |
| Ident.NameFromLow30 | axi_generic_conv/software/axi_generic_conv.c:59-61 | a word that passes the identity check spells the type string its type code determines |
| Ident.ConvCodeSpellsConv | axi_generic_conv/software/axi_generic_conv.c:27 | the convolution type code spells "conv" |
| Ident.PoolCodeSpellsPool | axi_generic_pool/software/axi_generic_pool.c:15 | the pooling type code spells "pool" |
| Ident.ElmWiseCodeSpellsElmw | axi_element_wise_proc/software/axi_element_wise_proc.c:14 | the element-wise type code spells "elmw" |
| Ident.ConvDeviceIsNamedConv | axi_generic_conv/software/axi_generic_conv.c:59-91 | a device that passes the convolution identity check decodes its type as "conv" |
| Ident.PoolDeviceIsNamedPool | axi_generic_pool/software/axi_generic_pool.c:38-64 | a device that passes the pooling identity check decodes its type as "pool" |
| Ident.ElmWiseDeviceIsNamedElmw | axi_element_wise_proc/software/axi_element_wise_proc.c:36-61 | a device that passes the element-wise identity check decodes its type as "elmw" |
| Ident.AccIdVanishes | axi_generic_conv/software/axi_generic_conv.c:93 | the accelerator id, read from the name word after six 5-bit shifts and a further shift by 30, is always 0 |
| Ident.LetterIgnoresHighBits | axi_generic_conv/software/axi_generic_conv.c:84-91 | a letter depends only on the low 30 bits of the name word |
| Ident.LettersOfLow30 | axi_generic_conv/software/axi_generic_conv.c:84-91 | the six letters are the base-32 digits of the type code |
| ConvTypes.CalFmtOfCode | axi_generic_conv/software/axi_generic_conv.h:39-43 | decoding a format code yields the format with that code |
| ConvTypes.CalFmtCodesFitProbe | axi_generic_conv/software/axi_generic_conv.c:108-127 | each format code fits the 3-bit field the format probes test, and decodes back to its format |
| ConvTypes.OfmapCodeIsLog2Bytes | axi_generic_conv/software/axi_generic_conv.h:46-50 | the output element type code is the base-2 logarithm of its byte width |
| ConvTypes.KernalShapeSide | axi_generic_conv/software/axi_generic_conv.h:53-60 | kernel shape code n stands for a side of 2n+1 |
| ConvTypes.FmbufColnIsPowerOfTwo | axi_generic_conv/software/axi_generic_conv.h:63-75 | row-length code n stands for 2^(n+2) surfaces per feature-map buffer row, the shift the configuration routine applies |
| ConvTypes.WgtblkSfcNIsPowerOfTwo | axi_generic_conv/software/axi_generic_conv.h:78-87 | weight block code n stands for 2^n surfaces |
| ConvProbe.Limit8 | axi_generic_conv/software/axi_generic_conv.c:95-106 | an 8-bit limit field holds the limit minus one: field+1, and 0 when the field is all ones |
| ConvProbe.Limit16 | axi_generic_conv/software/axi_generic_conv.c:95-106 | a 16-bit limit field holds the limit minus one, wrapping to 0 when all ones |
| ConvProbe.CapsOf | axi_generic_conv/software/axi_generic_conv.c:95-178 | the capability record built from the limit words and the probe results is within the field ranges |
| ConvProbe.ProbedCaps | axi_generic_conv/software/axi_generic_conv.c:95-178 | the capabilities init records from info0 to info3 and the readback probes are within the field ranges |
| ConvProbe.GeometryProbesMeaning | axi_generic_conv/software/axi_generic_conv.c:129-169 | each stride, group, padding and dilation probe reports support exactly when every bit of its field is writable or tied high |
| ConvProbe.FormatProbesMeaning | axi_generic_conv/software/axi_generic_conv.c:108-127 | int8 is found exactly when no bit of the format field is stuck high; int16 and fp16 need their code's bit settable and the other two bits not stuck high |
| ConvProbe.CapsProbedRegs | axi_generic_conv/software/axi_generic_conv.c:108-178 | the capability probes leave ctrl0 holding the readback of its own old value and do not touch info5 |
| ConvProbe.ProbeCaps | axi_generic_conv/software/axi_generic_conv.c:95-178 | the probes return the capabilities `ProbedCaps` defines and leave the registers `CapsProbedRegs` defines |
| ConvProbe.ProbeCalCfg | axi_generic_conv/software/axi_generic_conv.c:108-141 | the cal_cfg probes report each format and each large stride by the readback of its test word, and leave cal_cfg with the last one |
| ConvProbe.ProbeGeometry | axi_generic_conv/software/axi_generic_conv.c:143-169 | the group, padding and dilation probes report the readback of their test words and leave the last patterns in place |
| ConvProbe.ProbePerfMon | axi_generic_conv/software/axi_generic_conv.c:171-178 | the monitor probe reports whether its ctrl0 bit reads back set, and ctrl0 is restored to its old value |
| ConvProbe.ProbeResultsMakeCaps | axi_generic_conv/software/axi_generic_conv.c:95-178 | the probe results, combined as init combines them, give `ProbedCaps` |
| ConvLayer.ExtHeightFromBottom | axi_generic_conv/software/axi_generic_conv.c:513-517 | the padded height computed from the last-row index equals the padded-length formula, modulo 2^32 |
| ConvLayer.DilatedLen | axi_generic_conv/software/axi_generic_conv.c:500 | the dilated footprint is at least the kernel side, stays odd, and is at most 161 for legal kernels and dilations |
| ConvLayer.DilatedLenFacts | axi_generic_conv/software/axi_generic_conv.c:500 | the footprint formula keeps odd sides odd and stays within 161 |
| ConvLayer.OutputLen | axi_generic_conv/software/axi_generic_conv.c:560-570 | -2 exactly when the stride does not divide the uint32 span; otherwise, when the dilated footprint is at least 1 and at most the padded length, the windows tile the padded length exactly |
| ConvLayer.NarrowMapWrapsOutputLen | axi_generic_conv/software/axi_generic_conv.c:560-570 | a footprint wider than the padded map is not rejected: the span wraps and the output length becomes 0xFFFFFFFF |
| ConvLayer.ClampedQuot | axi_generic_conv/software/axi_generic_conv.c:521-539 | a clamped quotient fits its units into the budget and is maximal below the cap |
| ConvLayer.ClampedQuotFacts | axi_generic_conv/software/axi_generic_conv.c:521-539 | quotient bounds behind the clamp: `q*unit <= x < (q+1)*unit` |
| ConvLayer.ProductIsU32 | axi_generic_conv/software/axi_generic_conv.c:521-523 | the bank count times the bank depth fits uint32 |
| ConvLayer.FmbufRows | axi_generic_conv/software/axi_generic_conv.c:521-539 | feature-map buffer rows fit the allocated banks, are at most the cap, and are maximal below it |
| ConvLayer.KbufGroups | axi_generic_conv/software/axi_generic_conv.c:541-558 | weight buffer groups fit the remaining banks, are at most 256, and are maximal below it |
| ConvLayer.RowsBufferable | axi_generic_conv/software/axi_generic_conv.c:572-584 | intermediate-result rows fit the banks, are at most 16, are maximal below 16, and are 0 exactly when one row does not fit |
| ConvLayer.CalCfgFieldsDecode | axi_generic_conv/software/axi_generic_conv.c:586-590 | cal_cfg keeps the format, the two stride fields and the round field apart |
| ConvLayer.CalParamsFitFields | axi_generic_conv/software/axi_generic_conv.c:586-590 | legal strides and round counts fit their fields once one is subtracted |
| ConvLayer.SmallFieldFits | axi_generic_conv/software/axi_generic_conv.c:586-590 | counts of 1 to 16, or 1 to 8, fit 4-bit or 3-bit fields once one is subtracted |
| ConvLayer.CalCfgOfDecodes | axi_generic_conv/software/axi_generic_conv.c:586-590 | cal_cfg for legal parameters decodes back to the format, the strides and the rounds |
| ConvLayer.FmapCfg5FieldsDecode | axi_generic_conv/software/axi_generic_conv.c:608 | fmap_cfg5 keeps the element type and the two 15-bit extents apart |
| ConvLayer.WideOutputSpillsIntoHeight | axi_generic_conv/software/axi_generic_conv.c:608 | an output width above 0x8000 is not rejected, and its top bit lands in the height field |
| ConvLayer.BufCfg1FieldsDecode | axi_generic_conv/software/axi_generic_conv.c:619-622 | buf_cfg1 keeps the row-length code and the row field apart |
| ConvLayer.EmptyFeatureMapBufferEncodesFullField | axi_generic_conv/software/axi_generic_conv.c:521-539 | when the banks hold less than one row, the row count is 0 and buf_cfg1 reports 0xFFFF rows minus one |
| ConvLayer.ChannelGroups | axi_generic_conv/software/axi_generic_conv.c:501-511 | channel groups per kernel set are the set's channels over the channel parallelism, rounded up |
| ConvLayer.KernalSetCount | axi_generic_conv/software/axi_generic_conv.c:501-511 | kernel sets are the group count with groups, otherwise the kernels over the block width, rounded up |
| ConvLayer.KernalSets | axi_generic_conv/software/axi_generic_conv.c:501-511 | Undefined exactly where the routine divides by zero (no channel parallelism, or no groups and a zero block width); never a rejection |
| ConvLayer.Footprint | axi_generic_conv/software/axi_generic_conv.c:491-500 | the dilated footprint is at least the kernel side and at most 161 |
| ConvLayer.OutputSize | axi_generic_conv/software/axi_generic_conv.c:560-570 | -2 unless both strides divide their spans; when the footprint fits, the windows tile the padded map in each direction |
| ConvPlan.Busy | axi_generic_conv/software/axi_generic_conv.c:362-369 | the unit is idle exactly when all three idle flags of sts0 are set |
| ConvPlan.MidResBanks | axi_generic_conv/software/axi_generic_conv.c:572-576 | banks per intermediate-result row: the items scaled by the clock ratio over the bank depth, rounded up |
| ConvPlan.MidResRows | axi_generic_conv/software/axi_generic_conv.c:572-584 | Undefined exactly for a zero bank depth or zero banks per row; -2 only when one row needs more banks than exist; otherwise 1 to 16 rows that fit |
| ConvPlan.Plan | axi_generic_conv/software/axi_generic_conv.c:482-584 | the layout: accepted exactly when the map size fits int, the kernel sets are defined, both strides divide their spans (`OutputSize`) and at least one intermediate-result row fits (`MidResRows`); -2 exactly when the size and kernel sets are defined but the output-size or intermediate-buffer check fails; Undefined exactly on int overflow of the map size or a division by zero; an accepted layout tiles the map, its intermediate-result items and rows are those `MidResRows` derives, and its feature-map rows and kernel groups fit their banks and are as many as fit, up to the device cap and 256 (`BuffersFit`) |
| ConvPlan.LayoutOf | axi_generic_conv/software/axi_generic_conv.c:513-584 | the layout record carries the output size and intermediate rows, and its feature-map rows and kernel groups fit the banks each buffer gets and are maximal below their caps (`BuffersFit`) |
| ConvPlan.ImageOf | axi_generic_conv/software/axi_generic_conv.c:586-637 | grp_conv1 is written exactly for a grouped convolution, act_cfg1 exactly for leaky ReLU |
| ConvPlan.Compile | axi_generic_conv/software/axi_generic_conv.c:379-640 | -1 exactly while busy; every rejection is -1 or -2 |
| ConvPlan.CompileAccepts | axi_generic_conv/software/axi_generic_conv.c:379-640 | acceptance exactly when the unit is idle, every check passes, the map size fits int, the kernel sets are defined, `OutputSize` succeeds and `MidResRows` succeeds; -2 exactly when idle and either a check fails or (with the size and kernel sets defined) the output size or intermediate-buffer check fails; Undefined exactly when the derivation is; an accepted image is `ImageOf` the plan |
| ConvPlan.AcceptedImageDecodes | axi_generic_conv/software/axi_generic_conv.c:586-596 | an accepted image's cal_cfg decodes to the request's format, strides and rounds, and grp_conv1 is present exactly for groups |
| Conv.ProbedProp | axi_generic_conv/software/axi_generic_conv.c:95-211 | the properties init records keep the decoded identity and are within the field ranges |
| Conv.StartStatus | axi_generic_conv/software/axi_generic_conv.c:339-353 | start succeeds exactly when the calculation subsystem is enabled and the unit is idle, returns -1 exactly when it is disabled, and -2 exactly when it is enabled but busy |
| Conv.UnprobedProp | axi_generic_conv/software/axi_generic_conv.h:280-297 | the properties before init are within range |
| Conv.ConvHandler.constructor | axi_generic_conv/software/axi_generic_conv.h:280-297 | a handler bound to its register region, with nothing probed yet |
| Conv.ConvHandler.Init | axi_generic_conv/software/axi_generic_conv.c:56-214 | -1 and nothing changed exactly when the identity check fails; otherwise the decoded identity, `ProbedProp` of the limit words and probes, and the probed registers |
| Conv.ConvHandler.ProbeProp | axi_generic_conv/software/axi_generic_conv.c:95-211 | the probes return `ProbedProp` and leave `ProbedRegs` |
| Conv.ConvHandler.ProbeBnAct | axi_generic_conv/software/axi_generic_conv.c:180-207 | the batch-norm and activation probes report the readback of their test words |
| Conv.ConvHandler.Enable | axi_generic_conv/software/axi_generic_conv.c:223-229 | sets the enable bit of ctrl0, keeping its other bits |
| Conv.ConvHandler.Disable | axi_generic_conv/software/axi_generic_conv.c:238-242 | clears the enable bit of ctrl0 |
| Conv.ConvHandler.EnableCalSubSys | axi_generic_conv/software/axi_generic_conv.c:251-257 | sets the calculation-subsystem bit of ctrl0 |
| Conv.ConvHandler.DisableCalSubSys | axi_generic_conv/software/axi_generic_conv.c:266-270 | clears the calculation-subsystem bit of ctrl0 |
| Conv.ConvHandler.EnablePmCnt | axi_generic_conv/software/axi_generic_conv.c:279-289 | -1 and nothing written exactly when no monitor exists; otherwise sets the monitor bit |
| Conv.ConvHandler.DisablePmCnt | axi_generic_conv/software/axi_generic_conv.c:298-302 | clears the monitor bit of ctrl0 |
| Conv.ConvHandler.EnableBnActProc | axi_generic_conv/software/axi_generic_conv.c:311-317 | sets the batch-norm and activation bit of ctrl0 |
| Conv.ConvHandler.DisableBnActProc | axi_generic_conv/software/axi_generic_conv.c:326-330 | clears the batch-norm and activation bit of ctrl0 |
| Conv.ConvHandler.Start | axi_generic_conv/software/axi_generic_conv.c:339-353 | returns `StartStatus` of the old ctrl0 and sts0, and sets the start bits only on success |
| Conv.ConvHandler.IsBusy | axi_generic_conv/software/axi_generic_conv.c:362-369 | reports `Busy` of sts0 |
| Conv.ConvHandler.Cfg | axi_generic_conv/software/axi_generic_conv.c:379-640 | a rejected request returns its code and writes nothing; an accepted one writes exactly the compiled image |
| Conv.ConvHandler.Commit | axi_generic_conv/software/axi_generic_conv.c:586-640 | writes an accepted image and returns 0, or returns the rejection code unchanged |
| Conv.ConvHandler.WriteImage | axi_generic_conv/software/axi_generic_conv.c:586-637 | stores the image's words in the routine's order |
| Conv.ConvHandler.WriteGroup | axi_generic_conv/software/axi_generic_conv.c:592-596 | stores grp_conv0 and, with groups, grp_conv1 |
| Conv.ConvHandler.WriteBnAct | axi_generic_conv/software/axi_generic_conv.c:624-637 | stores bn_cfg, act_cfg0 and, for leaky ReLU, act_cfg1 |
| Conv.ConvHandler.GetCmdFnsN | axi_generic_conv/software/axi_generic_conv.c:676-687 | returns the status counter the query selects |
| Conv.ConvHandler.ClrCmdFnsN | axi_generic_conv/software/axi_generic_conv.c:697-711 | clears exactly the selected counters |
| Conv.ConvHandler.GetPmCnt | axi_generic_conv/software/axi_generic_conv.c:721-733 | -1 exactly without a monitor; otherwise the five monitor counters |
| Conv.ConvHandler.ClrPmCnt | axi_generic_conv/software/axi_generic_conv.c:742-753 | -1 and nothing written exactly without a monitor; otherwise clears the monitor counters |
| Conv.SetCtrl | axi_generic_conv/software/axi_generic_conv.c:223-229 | ctrl0 becomes the readback of its old value with the given bits set |
| Conv.ClearCtrl | axi_generic_conv/software/axi_generic_conv.c:238-242 | ctrl0 becomes the readback of its old value with the given bits cleared |
| Conv.WriteFmapKrn | axi_generic_conv/software/axi_generic_conv.c:598-617 | stores the feature-map and kernel words |
| Conv.WriteBuf | axi_generic_conv/software/axi_generic_conv.c:619-622 | stores the buffer words |
| Conv.BnActProbesMeaning | axi_generic_conv/software/axi_generic_conv.c:180-207 | each batch-norm and activation capability is found exactly when its test word survives the masks |
| Conv.InitLeavesProbePatterns | axi_generic_conv/software/axi_generic_conv.c:108-209 | init leaves each probed register with its last probe's readback and touches nothing else |
| Conv.InitDisablesCalSubSys | axi_generic_conv/software/axi_generic_conv.c:209 | init leaves ctrl0's writable bits other than the subsystem bit as they were; when the subsystem bit (bit 1) is writable, init clears it, so start returns -1 until it is enabled |
| Conv.CfgWritesOnlyConfiguration | axi_generic_conv/software/axi_generic_conv.c:586-637 | an accepted configuration stores only to configuration registers |
| ConvLegacyPlan.LegacyMidResRows | software/axi_generic_conv.c:419-427 | never a rejection; Undefined exactly for a zero bank depth or no items; otherwise at most 16 rows, possibly none |
| ConvLegacyPlan.LegacyPlan | software/axi_generic_conv.c:329-427 | accepted exactly when the map size fits int, the kernel sets are defined, `OutputSize` succeeds and `LegacyMidResRows` is defined; -2 exactly when the size and kernel sets are defined and the output size fails; Undefined exactly on overflow or division by zero; an accepted layout's intermediate rows are those `LegacyMidResRows` derives, and its feature-map rows (capped at 1024) and kernel groups fit their banks and are maximal (`BuffersFit`) |
| ConvLegacyPlan.LegacyImageOf | software/axi_generic_conv.c:429-462 | the shared layer words of the layout, with grp_conv1 always written |
| ConvLegacyPlan.LegacyCompile | software/axi_generic_conv.c:266-465 | -1 exactly while busy; every rejection is -1 or -2 |
| ConvLegacyPlan.LegacyCompileAccepts | software/axi_generic_conv.c:266-465 | acceptance exactly when the unit is idle, every check passes, the map size fits int, the kernel sets are defined, `OutputSize` succeeds and `LegacyMidResRows` is defined; -2 exactly when idle and either a check fails or (with the size and kernel sets defined) the output size fails; the accepted image is the layout's |
| ConvLegacyPlan.LegacyLeavesTwoKernelBanks | software/axi_generic_conv.c:325-327 | an accepted request leaves at least two banks to the kernel buffer |
| ConvLegacyPlan.LegacyShortMidBufferWrapsRows | software/axi_generic_conv.c:419-427 | when one row needs more banks than exist, the request is accepted with 0 rows and buf_cfg3 holds 0xFFFF |
| ConvLegacyPlan.LegacyAcceptedImageDecodes | software/axi_generic_conv.c:429-433 | an accepted image's cal_cfg decodes to the format, strides and rounds |
| ConvLegacy.LegacyProbedProp | software/axi_generic_conv.c:53-152 | the legacy properties keep the identity and are within range |
| ConvLegacy.LegacyStartStatus | software/axi_generic_conv.c:226-240 | start succeeds exactly when the subsystem bit (bit 0) is set and the unit is idle, returns -1 exactly when it is clear, and -2 exactly when it is set but the unit is busy |
| ConvLegacy.LegacyUnprobedProp | software/axi_generic_conv.c:36-41 | the properties before init are within range |
| ConvLegacy.LegacyConvHandler.constructor | software/axi_generic_conv.c:36-46 | a legacy handler bound to its region |
| ConvLegacy.LegacyConvHandler.Init | software/axi_generic_conv.c:36-157 | -1 and nothing changed exactly when the identity check fails; otherwise the decoded identity, the probed capabilities and registers |
| ConvLegacy.LegacyConvHandler.ProbeProp | software/axi_generic_conv.c:71-152 | the legacy probes return `ProbedCaps` with the legacy monitor bit |
| ConvLegacy.LegacyConvHandler.EnableCalSubSys | software/axi_generic_conv.c:166-172 | sets bit 0 of ctrl0 |
| ConvLegacy.LegacyConvHandler.DisableCalSubSys | software/axi_generic_conv.c:181-185 | clears bit 0 of ctrl0 |
| ConvLegacy.LegacyConvHandler.EnablePmCnt | software/axi_generic_conv.c:194-204 | -1 and nothing written exactly without a monitor; otherwise sets bit 1 |
| ConvLegacy.LegacyConvHandler.DisablePmCnt | software/axi_generic_conv.c:213-217 | clears bit 1 of ctrl0 |
| ConvLegacy.LegacyConvHandler.Start | software/axi_generic_conv.c:226-240 | returns `LegacyStartStatus` and sets the start bits only on success |
| ConvLegacy.LegacyConvHandler.IsBusy | software/axi_generic_conv.c:249-256 | reports `Busy` of sts0 |
| ConvLegacy.LegacyConvHandler.Cfg | software/axi_generic_conv.c:266-465 | a rejection writes nothing; an accepted request writes exactly the legacy image |
| ConvLegacy.LegacyConvHandler.Commit | software/axi_generic_conv.c:429-465 | writes an accepted image and returns 0, or returns the rejection code |
| ConvLegacy.LegacyConvHandler.WriteImage | software/axi_generic_conv.c:429-462 | stores the legacy image's words |
| ConvLegacy.LegacyConvHandler.GetCmdFnsN | software/axi_generic_conv.c:475-486 | returns the selected command counter |
| ConvLegacy.LegacyConvHandler.ClrCmdFnsN | software/axi_generic_conv.c:496-510 | clears exactly the selected counters |
| ConvLegacy.LegacyConvHandler.GetPmCnt | software/axi_generic_conv.c:519-521 | returns sts4, with no monitor check |
| ConvLegacy.LegacyConvHandler.ClrPmCnt | software/axi_generic_conv.c:530-538 | -1 and nothing written exactly without a monitor; otherwise clears sts4 |
| ConvLegacy.LegacyInitDisablesCalSubSys | software/axi_generic_conv.c:154 | legacy init leaves ctrl0's writable bits other than bit 0 as they were; when bit 0 is writable, init clears it, so start returns -1 until the subsystem is enabled |
| ConvLegacy.LegacyInitFrame | software/axi_generic_conv.c:82-154 | legacy init stores only to the probed registers |
| ConvLegacy.LegacyCfgWritesOnlyConfiguration | software/axi_generic_conv.c:429-462 | an accepted legacy configuration stores only to configuration registers |
| PoolPlan.ExtLen | axi_generic_pool/software/axi_generic_pool.c:276-277 | the padded length wraps modulo 2^16 |
| PoolPlan.PoolOutLen | axi_generic_pool/software/axi_generic_pool.c:279-292 | Undefined exactly for a zero stride; otherwise accepted exactly when the stride divides the int span, and -1 if not |
| PoolPlan.PoolOutLenTiles | axi_generic_pool/software/axi_generic_pool.c:279-292 | when the window is at least 1 and at most the padded length, an accepted output length tiles the padded length with the window |
| PoolPlan.WideWindowWrapsOutput | axi_generic_pool/software/axi_generic_pool.c:279-292 | a window wider than the map is not rejected: the negative span gives 0xFFFF or 0 output columns |
| PoolPlan.PoolGeometryOf | axi_generic_pool/software/axi_generic_pool.c:275-292 | -1 for an undivided span; Undefined exactly for a zero stride |
| PoolPlan.PoolGeometryTiles | axi_generic_pool/software/axi_generic_pool.c:279-292 | the accepted geometry tiles the padded map in each direction where the window is at least 1 and at most the padded length |
| PoolPlan.UpsGeometryOf | axi_generic_pool/software/axi_generic_pool.c:438-442 | the padded sizes, and the output sizes as their products with the factors when those fit 16 bits |
| PoolPlan.PoolMidRows | axi_generic_pool/software/axi_generic_pool.c:323-327 | never a rejection; Undefined exactly for a zero bank depth or a zero output width |
| PoolPlan.PoolMidRowsFit | axi_generic_pool/software/axi_generic_pool.c:323-327 | the bufferable rows fit the banks and are maximal |
| PoolPlan.PoolFmbufRows | axi_generic_pool/software/axi_generic_pool.c:303-321 | feature-map rows fit the banks, are at most the device maximum, and are maximal below it |
| PoolPlan.PostMacImageOf | axi_generic_pool/software/axi_generic_pool.c:366-383 | the post multiply-add words exist exactly when the stage is requested, with the two parameters as cal_cfg4 and cal_cfg5 |
| PoolPlan.PoolImageOf | axi_generic_pool/software/axi_generic_pool.c:356-410 | pool mode writes cal_cfg2 as zero |
| PoolPlan.PoolCompile | axi_generic_pool/software/axi_generic_pool.c:261-413 | every rejection is -1 or -2 |
| PoolPlan.UpsCompile | axi_generic_pool/software/axi_generic_pool.c:425-558 | every rejection is -1 or -2; the post multiply-add words follow the request |
| PoolPlan.PoolCompileAccepts | axi_generic_pool/software/axi_generic_pool.c:261-413 | acceptance exactly when the geometry divides, the paddings and strides are legal and every requested feature is supported; -2 exactly for a missing feature |
| PoolPlan.PoolModeRejectsUpsample | axi_generic_pool/software/axi_generic_pool.c:329-331 | pool mode never accepts the upsample mode |
| PoolPlan.PoolZeroStrideUndefined | axi_generic_pool/software/axi_generic_pool.c:279 | a zero horizontal stride is a division by zero |
| PoolPlan.PoolModeIgnoresConstPadding | axi_generic_pool/software/axi_generic_pool.c:364 | pool mode's result does not depend on constant-padding settings |
| PoolPlan.PoolImageSameFields | axi_generic_pool/software/axi_generic_pool.c:356-364 | the image depends only on the fields the routine reads |
| PoolPlan.CalCfg0FieldsDecode | axi_generic_pool/software/axi_generic_pool.c:356-360 | cal_cfg0 keeps mode, format and the two strides apart |
| PoolPlan.PoolCalCfg0Decodes | axi_generic_pool/software/axi_generic_pool.c:356-360 | pool cal_cfg0 decodes to the mode, the format and the strides minus one |
| PoolPlan.BufCfg0Decodes | axi_generic_pool/software/axi_generic_pool.c:406-408 | buf_cfg0 decodes to the row-length code and the raw row count |
| PoolPlan.ShortMidBufferWrapsRows | axi_generic_pool/software/axi_generic_pool.c:323-327 | when one row needs more banks than exist, the rows are 0 and buf_cfg1 is all ones |
| PoolPlan.UpsCompileAccepts | axi_generic_pool/software/axi_generic_pool.c:425-558 | acceptance exactly when paddings are legal, upsampling and every requested feature are supported and the geometry is defined |
| PoolPlan.UpsEmptyWidthUndefined | axi_generic_pool/software/axi_generic_pool.c:441-472 | an output width that is zero or wraps to zero makes the routine divide by zero |
| PoolPlan.UpsCalCfg0Decodes | axi_generic_pool/software/axi_generic_pool.c:501-503 | upsample cal_cfg0 decodes to the upsample mode and the format |
| PoolPlan.UpsCalCfg2Decodes | axi_generic_pool/software/axi_generic_pool.c:506-508 | cal_cfg2 decodes to the padding mode and the fill constant |
| Pool.PoolStartStatus | axi_generic_pool/software/axi_generic_pool.c:218-232 | start succeeds exactly when the subsystem bit is set and the unit is idle; -1 exactly when it is clear; -2 exactly when it is set but the unit is busy |
| Pool.PoolProbedProp | axi_generic_pool/software/axi_generic_pool.c:66-146 | the properties keep the identity, and the post multiply-add stage is present exactly when its parallelism is nonzero |
| Pool.PoolWritten | axi_generic_pool/software/axi_generic_pool.c:356-410 | a configuration writes exactly the calculation, feature-map and buffer words, and the post multiply-add words only with that stage |
| Pool.UnprobedPoolProp | axi_generic_pool/software/axi_generic_pool.h:223-235 | before init no monitor and no upsampling are recorded |
| Pool.PoolHandler.constructor | axi_generic_pool/software/axi_generic_pool.h:223-235 | a handler bound to its region |
| Pool.PoolHandler.Init | axi_generic_pool/software/axi_generic_pool.c:35-149 | -1 and nothing changed exactly when the identity check fails; otherwise the identity, `PoolProbedProp`, and the probed registers with ctrl0 overwritten |
| Pool.PoolHandler.ProbeProp | axi_generic_pool/software/axi_generic_pool.c:66-146 | the probes return `PoolProbedProp` and leave `PoolProbedRegs` |
| Pool.PoolHandler.ProbeCalCfg0 | axi_generic_pool/software/axi_generic_pool.c:78-118 | the mode and format probes report their readbacks, and cal_cfg0 keeps the last pattern |
| Pool.PoolHandler.ProbeModes | axi_generic_pool/software/axi_generic_pool.c:78-97 | each mode is supported exactly when its code reads back in the mode field |
| Pool.PoolHandler.ProbeFormats | axi_generic_pool/software/axi_generic_pool.c:99-118 | each format is supported exactly when its code reads back in the format field |
| Pool.PoolHandler.ProbePadding | axi_generic_pool/software/axi_generic_pool.c:126-138 | the padding probes report whether their patterns read back unchanged |
| Pool.PoolHandler.ProbePerfMon | axi_generic_pool/software/axi_generic_pool.c:140-146 | the monitor probe reports its bit's readback and leaves ctrl0 zeroed |
| Pool.PoolHandler.EnableCalSubSys | axi_generic_pool/software/axi_generic_pool.c:158-164 | sets bit 8 of ctrl0 |
| Pool.PoolHandler.DisableCalSubSys | axi_generic_pool/software/axi_generic_pool.c:173-177 | clears bit 8 of ctrl0 |
| Pool.PoolHandler.EnablePmCnt | axi_generic_pool/software/axi_generic_pool.c:186-196 | -1 and nothing written exactly without a monitor; otherwise sets bit 10 |
| Pool.PoolHandler.DisablePmCnt | axi_generic_pool/software/axi_generic_pool.c:205-209 | clears bit 10 of ctrl0 |
| Pool.PoolHandler.Start | axi_generic_pool/software/axi_generic_pool.c:218-232 | returns `PoolStartStatus` and sets the start bits only on success |
| Pool.PoolHandler.IsBusy | axi_generic_pool/software/axi_generic_pool.c:241-248 | busy unless both idle flags of sts0 are set |
| Pool.PoolHandler.CfgInPoolMode | axi_generic_pool/software/axi_generic_pool.c:261-413 | a rejection writes nothing; an accepted request writes exactly `PoolWritten` of the compiled image |
| Pool.PoolHandler.CfgInUpSampleMode | axi_generic_pool/software/axi_generic_pool.c:425-558 | a rejection writes nothing; an accepted request writes exactly `PoolWritten` of the compiled image |
| Pool.PoolHandler.Commit | axi_generic_pool/software/axi_generic_pool.c:356-412 | writes an accepted image and returns 0, or returns the rejection code |
| Pool.PoolHandler.WriteImage | axi_generic_pool/software/axi_generic_pool.c:356-410 | stores the image's words in the routine's order |
| Pool.PoolHandler.WritePostMac | axi_generic_pool/software/axi_generic_pool.c:366-383 | uses or bypasses the post multiply-add stage as the image says |
| Pool.PoolHandler.UsePostMac | axi_generic_pool/software/axi_generic_pool.c:366-378 | sets bit 9 of ctrl0 and writes cal_cfg3 to cal_cfg5 |
| Pool.PoolHandler.BypassPostMac | axi_generic_pool/software/axi_generic_pool.c:379-383 | clears bit 9 of ctrl0 |
| Pool.PoolHandler.WriteFmap | axi_generic_pool/software/axi_generic_pool.c:385-404 | stores fmap_cfg0 to fmap_cfg6 |
| Pool.PoolHandler.GetCmdFnsN | axi_generic_pool/software/axi_generic_pool.c:568-577 | returns sts1 or sts2 as selected |
| Pool.PoolHandler.ClrCmdFnsN | axi_generic_pool/software/axi_generic_pool.c:587-597 | clears exactly the selected counters |
| Pool.PoolHandler.GetPmCnt | axi_generic_pool/software/axi_generic_pool.c:606-608 | returns sts3 |
| Pool.PoolHandler.ClrPmCnt | axi_generic_pool/software/axi_generic_pool.c:617-625 | -1 and nothing written exactly without a monitor; otherwise clears sts3 |
| Pool.CalCfg0ProbesMeaning | axi_generic_pool/software/axi_generic_pool.c:78-118 | each mode and format is found exactly when its code survives the masks of cal_cfg0 |
| Pool.PaddingAndMonitorProbesMeaning | axi_generic_pool/software/axi_generic_pool.c:126-146 | the padding and monitor capabilities are found exactly when their patterns survive the masks |
| Pool.InitLeavesProbePatterns | axi_generic_pool/software/axi_generic_pool.c:78-146 | init leaves the probed registers with their last patterns and touches nothing else |
| Pool.InitStopsAccelerator | axi_generic_pool/software/axi_generic_pool.c:146 | after init ctrl0 holds only its stuck-high bits, and start returns -1 exactly when bit 8 is not stuck high |
| Pool.CfgWritesOnlyConfiguration | axi_generic_pool/software/axi_generic_pool.c:356-410 | a configuration stores only to the registers its image names |
| Pool.CfgWritesImage | axi_generic_pool/software/axi_generic_pool.c:356-410 | each written register holds the readback of its image word |
| Pool.CfgPostMacFollowsRequest | axi_generic_pool/software/axi_generic_pool.c:366-383 | cal_cfg3 to cal_cfg5 are written exactly when the stage is requested |
| Pool.PostMacCtrl0Meaning | axi_generic_pool/software/axi_generic_pool.c:366-383 | with a writable bit 9, ctrl0 reads it back as requested |
| Pool.ClearedCmdCountersMeaning | axi_generic_pool/software/axi_generic_pool.c:587-597 | only the selected counters are cleared |
| ElmPlan.LenFitsMeaning | axi_element_wise_proc/software/axi_element_wise_proc.c:197-211 | a buffer length fits exactly when it is below 2^24 |
| ElmPlan.ElmStartStatus | axi_element_wise_proc/software/axi_element_wise_proc.c:196-230 | -1 exactly while a start bit of ctrl1 is still set, -2 exactly when the three enables are not all set, 0 exactly when idle, enabled and every used length fits, otherwise -3 |
| ElmPlan.Ctrl1WordMeaning | axi_element_wise_proc/software/axi_element_wise_proc.c:224-227 | ctrl1 starts the operand X and result channels, and the operand A/B channel exactly when it is used |
| ElmPlan.ElmCompile | axi_element_wise_proc/software/axi_element_wise_proc.c:240-325 | never undefined |
| ElmPlan.ElmCompileAccepts | axi_element_wise_proc/software/axi_element_wise_proc.c:240-325 | -1 exactly when a requested unit is absent, -2 exactly when all are present but a precision is out of range, otherwise accepted with the configuration's image |
| ElmPlan.AcceptedPrecisions | axi_element_wise_proc/software/axi_element_wise_proc.c:253-285 | an accepted configuration has every used precision in range and never gains fraction bits in rounding |
| ElmPlan.ElmCompileIgnoresCaps | axi_element_wise_proc/software/axi_element_wise_proc.c:240-285 | the result does not depend on the stream and format capability flags |
| ElmPlan.OpAPrecisionOnlyForVariable | axi_element_wise_proc/software/axi_element_wise_proc.c:241 | the operand A precision matters only when operand A is used |
| ElmPlan.FmtCfgRoundTrip | axi_element_wise_proc/software/axi_element_wise_proc.c:287-290 | fmt_cfg decodes back to the three formats |
| ElmPlan.FixedPointCfg0Decodes | axi_element_wise_proc/software/axi_element_wise_proc.c:292-296 | fixed_point_cfg0 decodes back to the four precisions |
| ElmPlan.FixedPointCfg1Decodes | axi_element_wise_proc/software/axi_element_wise_proc.c:298-301 | fixed_point_cfg1 decodes to the two rounding precisions and their difference, wrapping when the output one is larger |
| ElmPlan.AcceptedRoundingDifference | axi_element_wise_proc/software/axi_element_wise_proc.c:298-301 | an accepted rounding configuration stores the exact difference |
| ElmPlan.UnusedRoundingWrapsDifference | axi_element_wise_proc/software/axi_element_wise_proc.c:298-301 | with rounding unused, an output precision above the input one is accepted and writes the wrapped difference |
| ElmPlan.OpABCfg0Decodes | axi_element_wise_proc/software/axi_element_wise_proc.c:303-307 | with 0/1 flags, op_a_b_cfg0 decodes to the four flags |
| ElmPlan.WideOpAFlagLandsOnOpB | axi_element_wise_proc/software/axi_element_wise_proc.c:303-307 | a flag value of 2 lands in operand B's bit |
| ElmPlan.FuBypassDecodes | axi_element_wise_proc/software/axi_element_wise_proc.c:317-322 | fu_bypass_cfg sets exactly the bits of unused units |
| Elm.ElmProbedProp | axi_element_wise_proc/software/axi_element_wise_proc.c:63-93 | the properties keep the identity and decode the capability bits of info1 |
| Elm.UnprobedElmProp | axi_element_wise_proc/software/axi_element_wise_proc.h:186-197 | before init no monitor and no rounding unit are recorded |
| Elm.ElmHandler.constructor | axi_element_wise_proc/software/axi_element_wise_proc.h:186-197 | a handler bound to its region |
| Elm.ElmHandler.Init | axi_element_wise_proc/software/axi_element_wise_proc.c:33-96 | -1 and nothing changed exactly when the identity check fails; otherwise the identity, `ElmProbedProp`, and the probed registers |
| Elm.ElmHandler.ProbeProp | axi_element_wise_proc/software/axi_element_wise_proc.c:63-93 | the probes return `ElmProbedProp` and leave the probed registers |
| Elm.ElmHandler.ProbeUnits | axi_element_wise_proc/software/axi_element_wise_proc.c:84-89 | the unit probe reports the units whose bypass bits read back clear |
| Elm.ElmHandler.ProbePerfMon | axi_element_wise_proc/software/axi_element_wise_proc.c:91-93 | the monitor probe reports its bit's readback and leaves ctrl0 zeroed |
| Elm.ElmHandler.Enable | axi_element_wise_proc/software/axi_element_wise_proc.c:105-111 | sets the enable bit of ctrl0 |
| Elm.ElmHandler.Disable | axi_element_wise_proc/software/axi_element_wise_proc.c:120-124 | clears the enable bit |
| Elm.ElmHandler.EnableDataHubAndProcCore | axi_element_wise_proc/software/axi_element_wise_proc.c:133-139 | sets the data hub and processing core bits |
| Elm.ElmHandler.DisableDataHubAndProcCore | axi_element_wise_proc/software/axi_element_wise_proc.c:148-152 | clears those bits |
| Elm.ElmHandler.EnableCycleNCnt | axi_element_wise_proc/software/axi_element_wise_proc.c:161-172 | -1 and nothing written exactly without a monitor; otherwise sets its bit |
| Elm.ElmHandler.DisableCycleNCnt | axi_element_wise_proc/software/axi_element_wise_proc.c:181-185 | clears the cycle counter bit |
| Elm.ElmHandler.Start | axi_element_wise_proc/software/axi_element_wise_proc.c:196-230 | returns `ElmStartStatus` and writes the buffers and ctrl1 only on success |
| Elm.ElmHandler.WriteBuffers | axi_element_wise_proc/software/axi_element_wise_proc.c:213-222 | stores the used buffer words |
| Elm.ElmHandler.Cfg | axi_element_wise_proc/software/axi_element_wise_proc.c:240-325 | a rejection writes nothing; an accepted configuration writes exactly its image |
| Elm.ElmHandler.WriteImage | axi_element_wise_proc/software/axi_element_wise_proc.c:287-322 | stores the image's words |
| Elm.ElmHandler.GetCmdFnsN | axi_element_wise_proc/software/axi_element_wise_proc.c:335-346 | returns the selected counter |
| Elm.ElmHandler.ClrCmdFnsN | axi_element_wise_proc/software/axi_element_wise_proc.c:356-370 | clears exactly the selected counters |
| Elm.ElmHandler.GetPmCnt | axi_element_wise_proc/software/axi_element_wise_proc.c:380-388 | -1 and no value exactly without a monitor; otherwise sts3 |
| Elm.ElmHandler.ClrPmCnt | axi_element_wise_proc/software/axi_element_wise_proc.c:397-405 | -1 and nothing written exactly without a monitor; otherwise clears sts3 |
| Elm.UnitAndMonitorProbesMeaning | axi_element_wise_proc/software/axi_element_wise_proc.c:84-93 | a unit is present exactly when its bypass bit is not stuck high; the monitor exactly when its bit can be set |
| Elm.CapsOfDecodes | axi_element_wise_proc/software/axi_element_wise_proc.c:69-82 | the fourteen capability flags pack back to bits 8 to 21 of info1 |
| Elm.BypassWordReadsBackUsedUnits | axi_element_wise_proc/software/axi_element_wise_proc.c:317-322 | on a device with writable bypass bits, the bypass word reads back as the used units |
| Elm.InitLeavesProbePatterns | axi_element_wise_proc/software/axi_element_wise_proc.c:84-93 | init leaves the probed registers with their patterns and nothing else changed |
| Elm.InitBlocksStart | axi_element_wise_proc/software/axi_element_wise_proc.c:91-93 | unless the three enable bits of ctrl0 are stuck high, start fails after init until the unit is enabled again |
| Elm.EnablesPassStartCheck | axi_element_wise_proc/software/axi_element_wise_proc.c:105-139 | enabling the unit, the hub and the core passes start's enable check; disabling either fails it |
| Elm.StartWritesBuffers | axi_element_wise_proc/software/axi_element_wise_proc.c:213-227 | a successful start writes the used buffer words and ctrl1, and nothing else |
| Elm.CfgWrittenMeaning | axi_element_wise_proc/software/axi_element_wise_proc.c:287-322 | storing an image writes each of its words and nothing else |
| Elm.CfgWritesImage | axi_element_wise_proc/software/axi_element_wise_proc.c:287-322 | an accepted configuration writes its words and stores a constant operand exactly when it is marked constant |
| Elm.ClearedCmdCountersMeaning | axi_element_wise_proc/software/axi_element_wise_proc.c:356-370 | only the selected counters are cleared |

## Left out

- Memory-mapped I/O is a `RegFile` with fixed writable and tied masks. A register whose value changes on its own (the busy flags, the counters) is read as it stands; the model has no hardware clock.
- Pointers in the configuration records are the 32-bit values the drivers cast them to. The element-wise constant operands are the values the pointers refer to.
- The parameter memory and lookup-table writers of the convolution driver (`wr_bn_param_mem`, `wr_sigmoid_lut_mem`) are left out: they are `memcpy` into device memory.
- The leaky-ReLU alpha is a float. The model keeps its 32-bit pattern, as `act_cfg1` receives it.
- The pooling header declares enable and disable routines that the source file does not define. They are not modelled.
- The pooling header declares `get_pm_cnt` with a different signature from the definition. The model follows the definition in the `.c` file.
- The pooling header's change log says `buf_cfg0` holds the row count minus one, while the code writes the raw count. The model follows the code (`PoolPlan.BufCfg0Decodes`).
- The current convolution header lacks the activation type, sigmoid, tanh and `info5` members that the `.c` file uses. The model takes their shapes from the `.c` file. The activation codes 1, 2 and 3 are taken from the order in which the driver probes them.
- The 0xFFFFFFFF fall-through of `get_cmd_fns_n` is unreachable for the enumerated queries and is not modelled.
- Conv.ConvHandler.Cfg, ConvLegacy.LegacyConvHandler.Cfg, Pool.PoolHandler.CfgInPoolMode and Pool.PoolHandler.CfgInUpSampleMode require a request that does not reach C undefined behaviour. The compile functions say exactly which requests do (`Undefined`); nothing is claimed about the driver's behaviour on them.
- ElmPlan.ElmCompile: the stream-width and format capability flags that init records are never consulted by `cfg`. This is stated as `ElmPlan.ElmCompileIgnoresCaps`.
- Elm.ElmHandler.GetPmCnt returns the counter as an `Option` instead of filling an output record.
- The enumerations of the headers (the convolution calculation format, kernel shape, row length, weight-block size, output element type and activation function; the pool and upsample processing mode; the element-wise input, calculation and output formats; the interrupt query and clear selectors) are closed datatypes, so callers are assumed to pass enumerators. The C fields can hold any int, and the model does not capture what the drivers do with other values: a convolution format code of 3 passes every format check and is packed into cal_cfg; a kernel shape outside 0 to 5 leaves the kernel length uninitialised; a row-length code outside the enumeration applies no shift to the feature-map row count; an element-wise format code outside its enumeration is packed raw into fmt_cfg.
- Register words are decoded one word at a time. No lemma relates the words of different registers.
