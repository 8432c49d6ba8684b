# Si5394 clock generator controller, modelled in Dafny

This project models the logic of a controller for a Silicon Labs Si5394 clock generator, and proves
properties of that model. The controller's pipeline turns a configuration into bytes on the bus:

- **Configuration.** Output channels carry a frequency, a signal format and an enable flag. Inputs
  carry a frequency and a format. The configuration also holds one output supply voltage.
- **Divider synthesis.** The model chooses the VCO frequency and the dividers: output N/R, input P
  and feedback M.
- **Register compilation.** The configuration is compiled into the device's register map.
- **Transfer list.** The register map becomes a list of (address, byte) pairs, sorted and merged.
- **Wire protocol.** A Connection object writes that list to the device over SPI, in page-addressed
  bursts, framed by a fixed preamble and postamble.
- **Status.** The device status is read back and decoded into loss-of-signal, loss-of-lock and
  holdover flags.
- **Worker.** A worker runs one bus operation at a time and queues at most ten more.
- **Dialogs.** Two dialogs edit the configuration: the output-format dialog keeps every CMOS output
  on the single output supply, and a keypad enters frequencies.
- **Register dump.** A stand-alone writer reads a register dump from a text file.

## How the model is organised

Each source file is one module:

| module | models |
|---|---|
| `Config` | logic/Config.py |
| `Registers` | `Reg` of logic/RegisterMap.py |
| `RegisterMap` | `RegisterMap` of logic/RegisterMap.py, including the transfer-list builder |
| `Transfer` | an independent reference definition of the transfer list |
| `SetRegister` | logic/SetRegister.py |
| `RegisterValues`, `InputValues`, `MaskValues`, `StageWrites` | lemmas about the compiled register values |
| `DividerCalc` | logic/DividerCalc.py |
| `Util` | Util.py |
| `Status` | logic/Status.py |
| `SpiConnection` | logic/SpiConnection.py |
| `Messages` | the fixed messages of Worker.py |
| `Worker` | Worker.py |
| `RegisterFile` | writeRegisterFile.py |
| `FormatConfig` | dialog/FormatConfig.py |
| `FreqPicker` | dialog/FreqPicker.py |

`Bits`, `Numeric`, `Text`, `Wrappers` and `Constants` supply the pieces of the Python that the model
needs: bitwise operators on naturals, gcd and lcm, ceil and round, and string splitting and integer
parsing.

Where the source changes state in place, the model does too:

- The register map is a class whose `Set` method updates a map of field values.
- The SPI connection is a class with a trace of bus events and a stream of reply bytes.
- The worker is a class with a busy flag, a FIFO queue and a log of the steps it runs.
- Status is a class writing into arrays that every Status object shares, as Python's class-level
  lists are.
- The dialogs are classes.

Loops in the source are loops in the model, proved against specification functions. The
properties are lemmas about those functions.

Two kinds of quantity are modelled differently:

- Frequencies entered by the user are natural numbers of Hz.
- Quantities that the source computes by float division are exact `real` values: Fpfd, the divider
  ratios and the real output frequency.
- Python's `round` is modelled as round-half-even, and `math.ceil` as the least integer not below.

## Model

| member | source | states |
|---|---|---|
| Config.VariantCounts | logic/Config.py:13-42 | SignalType has five values, InputFormat four, SignalVoltage three, DisabledState two, each listed once; the signal types and the voltages have distinct string values |
| Config.NewOutChannel | logic/Config.py:65-78 | a new output channel has the given index, frequency, enable flag and signal, defaulting to frequency 0, disabled and LVDS stopped low, and NN = ND = R = 0 and realFrequency 0 |
| Config.NewOutChannelDefaults | logic/Config.py:74-78 | `OutChannel(i)` is disabled, at frequency 0, with the LVDS signal stopped low at impedance 0, and has no divider |
| Config.NewInput | logic/Config.py:88-99 | a new input is disabled, has the given index, frequency and format, defaulting to index -1, frequency 0 and STANDARD, and PN = PD = 0 |
| Config.NewInputDefaults | logic/Config.py:96-99 | `Input()` has index -1, frequency 0 and the standard format; `Input(i)` has index i, frequency 0 and the standard format |
| Config.NewConfiguration | logic/Config.py:109-121 | a new configuration holds the given channels and inputs, vddo 1.8 V, and MN, MD, Mxaxb_N, Mxaxb_D, Pxaxb, fvco and Fpfd all 0 |
| Config.HasActiveChannel | logic/Config.py:124-125 | true exactly when some channel is enabled |
| Config.AnyChannelEnabled | logic/Config.py:124-125 | true exactly when some channel of the list is enabled |
| Config.AnyInputEnabled | logic/SetRegister.py:634 | true exactly when some input of the list is enabled |
| Config.DefaultConfiguration | TaktUi.py:197-205 | the start-up configuration is well formed: outputs 0..3 and inputs 0 and 1, each at its own position |
| Registers.BitRangeSpan | logic/RegisterMap.py:37-40 | "h:l" parses to lsb = l and msb = h |
| Registers.BitRangeOneBit | logic/RegisterMap.py:29-33 | a single number "n" parses to lsb = msb = n |
| Registers.BitRangeNotNumeric | logic/RegisterMap.py:34-36 | a single token that is not a number sets lsb = msb = -1 |
| Registers.BitSpecParses | logic/RegisterMap.py:27-40 | every bit range of the register table parses back to its own bounds |
| Registers.MakeReg | logic/RegisterMap.py:43-49 | a register keeps its addresses and value, and its access type is stripped of surrounding blanks; it fails exactly where `bitRange` raises |
| Registers.ByteAt | logic/RegisterMap.py:90 | the loop computes byte k of v, little-endian |
| Registers.Bytes | logic/RegisterMap.py:79-92 | `bytes()` computed by its loop equals the reference encoding of the field |
| Registers.OneByteField | logic/RegisterMap.py:80-84 | a one-address field gives exactly one pair, at its address; the bit at position j is set exactly when lsb <= j <= msb and bit j - lsb of the value is set |
| Registers.BytesReassemble | logic/RegisterMap.py:86-92 | a multi-address field gives one pair per address from a0 to a1, in order, and reassembling them gives the value modulo 2^(8n); lsb and msb are not applied |
| Registers.InsertBySorted | logic/RegisterMap.py:527 | stable insertion keeps a sequence sorted by key |
| Registers.SortBy | logic/RegisterMap.py:527 | Python's `sorted(xs, key)` is ordered by key and is a permutation of xs |
| RegisterMap.RRegAddresses | logic/RegisterMap.py:166 | the R dividers 0..3 start at 0x0250, 0x0253, 0x025C and 0x025F, leaving a hole after R1_REG |
| RegisterMap.RegOfIsTableRow | logic/RegisterMap.py:43-49 | the register of a field is the one the constructor builds from its table row |
| RegisterMap.Kept | logic/RegisterMap.py:549 | the filter keeps exactly the writable registers, in their order |
| RegisterMap.WritableKinds | logic/RegisterMap.py:549 | a register is kept exactly when its type contains "W" or "S" |
| RegisterMap.OrAtBits | logic/RegisterMap.py:565-569 | bit j of the merged byte at an address is set exactly when some contribution at that address has bit j set |
| RegisterMap.OrAtSameElements | logic/RegisterMap.py:557 | the merged byte at an address depends only on which contributions there are, not on their order |
| RegisterMap.Squash | logic/RegisterMap.py:559-576 | over address-sorted pairs the merge loop gives strictly increasing addresses, exactly the contributed addresses, and at each one the OR of its contributions |
| RegisterMap.TransferList | logic/RegisterMap.py:548-576 | filter, expand, sort and merge give strictly increasing addresses, exactly the addresses of the writable registers' bytes, and at each the OR of the bytes there |
| RegisterMap.RegisterMap.constructor | logic/RegisterMap.py:190-510 | a fresh map is built from the register table, with every field at its initial value |
| RegisterMap.RegisterMap.Set | logic/RegisterMap.py:25 | `reg.val = v` changes the value of that one field only |
| RegisterMap.RegisterMap.RegAt | logic/RegisterMap.py:112-127 | the register of a field has the field's table row, its current value and can be encoded |
| RegisterMap.RegisterMap.RegAtIsTableRow | logic/RegisterMap.py:190-510 | in a map built from the table, the register of k is k's table row holding k's value |
| RegisterMap.RegisterMap.RegsOf | logic/RegisterMap.py:121-127 | the registers of a list of fields, one per field in order, each that field's register |
| RegisterMap.RegisterMap.OrderedRegList | logic/RegisterMap.py:515-527 | `getOrderedRegList` is sorted by first address and is a permutation of the map's registers |
| RegisterMap.RegisterMap.BuildTransferList | logic/RegisterMap.py:539-576 | a given register list replaces the whole map; the result has increasing addresses, covers every address of the kept registers' bytes and holds the OR of the bytes at each |
| RegisterMap.RegisterMap.FullMapNonEmpty | logic/RegisterMap.py:563 | a map built from the table always has a first pair to send, so `buildTransferList()` never indexes an empty list |
| RegisterMap.SomethingToSend | logic/RegisterMap.py:563 | one writable register in the list is enough for the transfer list to have a first pair |
| Transfer.Ascending | logic/RegisterMap.py:557 | the addresses of a set, smallest first: strictly increasing and holding exactly the set's elements |
| Transfer.TransferDataIsTransferList | logic/RegisterMap.py:557-576 | the reference transfer list has increasing addresses, exactly the contributed addresses, and the OR at each |
| Transfer.IncreasingIsAscending | logic/RegisterMap.py:557-576 | the addresses of an increasing list are the ascending order of its address set |
| Transfer.TransferDataUnique | logic/RegisterMap.py:557-576 | any list with those three properties is the reference transfer list |
| Transfer.SendList | logic/RegisterMap.py:539-576 | the builder's result is exactly the reference transfer list of the writable registers' bytes |
| SetRegister.ShiftMaxIsLargest | logic/SetRegister.py:35-44 | the shift is the largest below min(pN, pD) up to which both shifted values fit their widths |
| SetRegister.ShiftMaxFits | logic/SetRegister.py:35-44 | a non-negative shift keeps num << s within pN bits and den << s within pD bits |
| SetRegister.ShiftMaxNegative | logic/SetRegister.py:35-44 | the result is -1 exactly when a width is 0 or num or den does not fit unshifted |
| SetRegister.LeftShiftMax | logic/SetRegister.py:35-44 | the counting loop with its early return computes the reference shift |
| SetRegister.Fit | logic/SetRegister.py:505-506 | a Python integer stored in a w-bit field is reduced modulo 2^w, and one already below 2^w is stored unchanged |
| SetRegister.RRegValueInverts | logic/SetRegister.py:440 | for an even R >= 2, R_REG = R/2 - 1 is non-negative and (R_REG + 1) * 2 == R |
| SetRegister.LosThresholds | logic/SetRegister.py:166-177 | the LOS trigger threshold is 106, and the clear threshold is 16 with two enabled inputs and 2 otherwise |
| SetRegister.CountEnabled | logic/SetRegister.py:174 | counts the enabled inputs, never more than the inputs |
| SetRegister.EnabledBitsBit | logic/SetRegister.py:155-158 | bit j of the mask is set exactly when it was already set or j == 2 * index of an enabled input |
| SetRegister.EnabledMask | logic/SetRegister.py:155-158 | the loop ORs bit 2 * index of every enabled input into the mask |
| SetRegister.SetPreamble | logic/SetRegister.py:619-656 | the preamble of `setRegister` leaves the map at its reference values |
| SetRegister.SetMasks | logic/SetRegister.py:622-633 | the status flag masks and every interrupt mask set |
| SetRegister.ToggleLosMask | logic/SetRegister.py:634-639 | bit 2 * index of LOS_INTR_MSK toggled once for every input |
| SetRegister.SetLosThresholds | logic/SetRegister.py:179-194 | the thresholds and the minimum-period bit written at every enabled input's position |
| SetRegister.SetLos | logic/SetRegister.py:152-204 | `setLOS` leaves the map at its reference values |
| SetRegister.FormatChannelValue | logic/SetRegister.py:261-352 | one pass of the channel loop leaves every driver field of the channel at its value in the format table |
| SetRegister.FormatChannelClockBit | logic/SetRegister.py:270 | one pass sets bit `index` of N_CLK_DIS for a disabled channel and keeps every other bit |
| SetRegister.FormatLoopValue | logic/SetRegister.py:261-352 | after the loop, the driver of the only channel with a given index holds its table values |
| SetRegister.FormatChannelOther | logic/SetRegister.py:261-352 | a channel's pass leaves the driver fields of every other index alone |
| SetRegister.FormatLoopUntouched | logic/SetRegister.py:261-352 | channels with other indices leave a driver's fields alone |
| SetRegister.FormatLoopClockBit | logic/SetRegister.py:259-270 | after the loop, bit j of N_CLK_DIS is set exactly when it was set before or a disabled channel has index j |
| SetRegister.SetChannelFormat | logic/SetRegister.py:262-352 | one pass over a channel computes the reference values |
| SetRegister.SetChannelFormats | logic/SetRegister.py:261-352 | the loop over the channels computes the reference values |
| SetRegister.SetOutputFormat | logic/SetRegister.py:258-354 | `setOutputFormat` leaves the map at its reference values |
| SetRegister.SetOutputGlobals | logic/SetRegister.py:670-684 | the global output enable and the output-disable masks set |
| SetRegister.PShift | logic/SetRegister.py:392-397 | the shift of a fractional input divider is non-negative |
| SetRegister.SetInputPass | logic/SetRegister.py:371-412 | the inner loop over the inputs for one input divider computes the reference values |
| SetRegister.SetInputPasses | logic/SetRegister.py:368-412 | the nested loop over the input dividers and the inputs computes the reference values |
| SetRegister.SetFracnModes | logic/SetRegister.py:415-416 | P_FRACN_MODE of every input divider is set to 0xB |
| SetRegister.SetInputDivider | logic/SetRegister.py:361-420 | `setInputDivider` leaves the map at its reference values |
| SetRegister.NShift | logic/SetRegister.py:433-438 | the shift of an enabled output divider is non-negative |
| SetRegister.SetOutputDividers | logic/SetRegister.py:430-458 | the channel loop of `setOutputDivider` computes the reference values |
| SetRegister.SetOutputDivider | logic/SetRegister.py:428-461 | `setOutputDivider` leaves the map at its reference values |
| SetRegister.SetStepGlobals | logic/SetRegister.py:694-701 | single-channel update, the FINC/FDEC mask and zero-delay mode off |
| SetRegister.FractionalMIff | logic/SetRegister.py:527-530 | the feedback divider is fractional exactly when MD > 1 does not divide MN |
| SetRegister.SetPllConfig | logic/SetRegister.py:468-539 | `setPLLConfig` leaves the map at its reference values |
| SetRegister.SetPriorities | logic/SetRegister.py:730-737 | an enabled input at position 2 gets priority 2, at positions 0, 1 and 3 priority 1 |
| SetRegister.PowerUpBitsBit | logic/SetRegister.py:754-760 | bit j of the power-up mask is set exactly when the channel at list position j is enabled |
| SetRegister.PowerUpMask | logic/SetRegister.py:754-758 | the loop computes the power-up mask |
| SetRegister.SetCrystal | logic/SetRegister.py:745-778 | the crystal settings and N_PDNB |
| SetRegister.SetValidation | logic/SetRegister.py:780-784 | the validation bit of every enabled input's position, and validation on with time setting 1 |
| SetRegister.Keeps | logic/SetRegister.py:616-787 | a field that no later stage writes keeps the value it had after an earlier stage |
| SetRegister.SetRegisterMap | logic/SetRegister.py:616-787 | `setRegister` returns a fresh map holding exactly the compiled values, a function of the configuration alone, so repeated calls agree |
| RegisterValues.Unwritten | logic/SetRegister.py:617 | a field no stage writes keeps its reset value |
| RegisterValues.OnlyWriter | logic/SetRegister.py:616-787 | a field only one stage writes holds, once compiled, what that stage makes of its reset value |
| RegisterValues.DriverFields | logic/SetRegister.py:279-352 | the driver of a channel whose index no other channel shares holds its row of the format table |
| RegisterValues.ClockDisableBits | logic/SetRegister.py:259-270 | N_CLK_DIS holds bit 4 and the bit of every disabled channel's index, and no other |
| RegisterValues.PowerUpBitsCompiled | logic/SetRegister.py:754-760 | N_PDNB holds the bit of every enabled channel, by its position in the list |
| RegisterValues.LosEnableBits | logic/SetRegister.py:154-161 | LOS_EN holds bit 2 * index of every enabled input and no other, and the crystal's LOS detector is on |
| RegisterValues.FractionalFeedback | logic/SetRegister.py:527-535 | M_FRAC_EN = 1 and FRACN_CLK_DIS_PLL = 0 exactly when MD > 1 and MN/MD is not whole |
| RegisterValues.DividerLoopValue | logic/SetRegister.py:430-456 | after the loop, the divider of the only channel with a given index holds that channel's values |
| RegisterValues.OutputDividerFields | logic/SetRegister.py:430-458 | an enabled channel's divider holds R_REG = R/2 - 1, NN and ND shifted left as far as both fit, and N_UPDATE = 1; a disabled one only gets N_UPDATE = 0 |
| RegisterValues.DividerRatio | logic/SetRegister.py:433-442 | an enabled channel's N divider fits its fields and keeps the ratio NN/ND |
| RegisterValues.OutputEnableBits | logic/SetRegister.py:429-447 | N_CLK_TO_OUTX_EN holds exactly the bits of the enabled channels' indices |
| RegisterValues.OutputBypassBits | logic/SetRegister.py:450-452 | N_PIBYP holds exactly the bits of the enabled channels with ND <= 1 |
| InputValues.InputDividerFed | logic/SetRegister.py:368-412 | after `setInputDivider`, a divider fed by exactly one input holds that input's values |
| InputValues.InputDividerUnfed | logic/SetRegister.py:368-416 | a divider no input feeds keeps its old values, except that its fractional mode becomes 0xB |
| InputValues.FedDividerFields | logic/SetRegister.py:373-399 | the divider an enabled input feeds, alone, holds PN and PD, shifted when PD > 1, once compiled |
| InputValues.UnfedDividerFields | logic/SetRegister.py:415-416 | a divider no enabled input feeds holds zeros and the fractional mode 0xB once compiled |
| InputValues.FedRatio | logic/SetRegister.py:392-399 | a fractional input divider is shifted as far as both parts fit and keeps the ratio PN/PD |
| MaskValues.LosMaskLoopBit | logic/SetRegister.py:635-639 | the toggle loop flips bit j of LOS_INTR_MSK once for every input at position j, enabled or not |
| MaskValues.LosInterruptBits | logic/SetRegister.py:629-639 | LOS_INTR_MSK is 0xFF, with bit j flipped when some input is enabled and an odd number of inputs sit at position j |
| MaskValues.InputsAtDevice | logic/SetRegister.py:637-639 | inputs IN0 and IN1 sit at positions 0 and 2, so with both configured each position gets one toggle |
| MaskValues.LockInterrupts | logic/SetRegister.py:631-644 | LOL_INTR_MSK and HOLD_INTR_MSK are 0 when some input is enabled and 1 otherwise |
| MaskValues.LosTriggerValue | logic/SetRegister.py:179-185 | an enabled input's LOS detector triggers at 106; a position without an enabled input keeps a zero threshold |
| MaskValues.LosClearValue | logic/SetRegister.py:170-191 | an enabled input's LOS detector clears at 16 with two enabled inputs and 2 otherwise |
| MaskValues.ValidationBits | logic/SetRegister.py:780-782 | IN_CLK_VAL_PWR_UP_DIS holds exactly the bits of the enabled inputs' positions |
| MaskValues.ValidationEnabled | logic/SetRegister.py:783-784 | input clock validation is on, with time setting 1 |
| StageWrites.OnlyFormatWritesDrivers | logic/SetRegister.py:258-354 | only `setOutputFormat` writes the output driver fields |
| StageWrites.OnlyOutputDividerWritesDividers | logic/SetRegister.py:428-461 | only `setOutputDivider` writes the output divider fields |
| StageWrites.OnlyInputDividerWritesDividers | logic/SetRegister.py:361-420 | only `setInputDivider` writes the input divider fields |
| DividerCalc.TargetFvco | logic/DividerCalc.py:30-40 | the target is the lcm of the frequencies when that is within 14 GHz, else their maximum |
| DividerCalc.FindFpll | logic/DividerCalc.py:42-45 | fvco = Mxaxb_N is the largest multiple of the target within 14 GHz, and Mxaxb_D = 54 MHz |
| DividerCalc.FpllCoversFrequencies | logic/DividerCalc.py:30-45 | with the lcm within 14 GHz fvco is a positive multiple of every frequency, otherwise a positive multiple of the largest, always within 14 GHz |
| DividerCalc.FloorMultiple | logic/DividerCalc.py:43 | `floor(n / t) * t` is the largest multiple of t within n |
| DividerCalc.BestMultIsFirstLeast | logic/DividerCalc.py:77-98 | the search keeps the first multiplier of least error among those it tries, and only one whose error improves the start bound |
| DividerCalc.ExactSearchKeepsOne | logic/DividerCalc.py:91-93 | in exact arithmetic the error is 0 at multiplier 1, so the search stops there and keeps multiplier 1 |
| DividerCalc.BestDividerExact | logic/DividerCalc.py:100-104 | in exact arithmetic `findBestDivider` gives NN = fvco, ND = 2f and R = 2, and these produce the channel's frequency |
| DividerCalc.FindBestDivider | logic/DividerCalc.py:75-106 | the loop over multipliers 1..99 with its breaks gives the reference result |
| DividerCalc.RatioTest | logic/DividerCalc.py:115 | the test ND/NN < 1/4096 is NN > 4096 * ND |
| DividerCalc.HalveNumerator | logic/DividerCalc.py:116-121 | the halving loop from R = 2 computes the reference halving |
| DividerCalc.RescaleDivider | logic/DividerCalc.py:125-133 | the rescale loop computes the reference rescaling |
| DividerCalc.HalveBounds | logic/DividerCalc.py:119-121 | halving from NN > 4096 * ND ends with NN in (2048 * ND, 4096 * ND] |
| DividerCalc.HalveKeepsProduct | logic/DividerCalc.py:119-121 | halving NN and doubling R keeps NN * R |
| DividerCalc.RescaleKeepsRatio | logic/DividerCalc.py:127-133 | the rescale loop keeps NN/ND |
| DividerCalc.RescaleInRange | logic/DividerCalc.py:127-133 | the rescale loop assigns only NN < 2^44 and ND < 2^32 |
| DividerCalc.RescaleMaximal | logic/DividerCalc.py:127-133 | the rescale loop leaves a fraction in NN only when doubling once more would overflow a field |
| DividerCalc.CapNKeepsSmall | logic/DividerCalc.py:115 | a channel with NN <= 4096 * ND is left as it is |
| DividerCalc.CapNSetsR | logic/DividerCalc.py:116-138 | on the halving path only NN, ND and R change, and R becomes an even number of at least 4 |
| DividerCalc.CapNRatioRange | logic/DividerCalc.py:116-138 | on the halving path the new NN/ND lies in [2048, 4096], and ND does not shrink |
| DividerCalc.CapNFitsFields | logic/DividerCalc.py:127-138 | on the halving path an ND below 2^32 leaves NN below 2^44 and ND below 2^32 |
| DividerCalc.CapNTruncation | logic/DividerCalc.py:119-138 | on the halving path NN/ND * R undershoots the original 2 * NN/ND by less than one unit of the truncation |
| DividerCalc.CapNExact | logic/DividerCalc.py:127-138 | the truncation loses nothing unless the rescale loop stopped at a field width |
| DividerCalc.CapNShape | logic/DividerCalc.py:114-140 | `capNdivider` keeps NN and ND positive, leaves R even and at least 2, and caps NN/ND at 4096 |
| DividerCalc.CapNdivider | logic/DividerCalc.py:114-140 | the two loops of `capNdivider` give the reference result |
| DividerCalc.BestDividerRatio | logic/DividerCalc.py:100-101 | whatever multiplier the search keeps, NN/ND == fvco/2f |
| DividerCalc.PickedDivider | logic/DividerCalc.py:150-162 | within 1e-6 of an integer the divider is round(fvco/2f), ND = 1 and R = 2; otherwise the search result, with NN/ND == fvco/2f |
| DividerCalc.ChannelDivider | logic/DividerCalc.py:147-172 | a disabled channel gets zeros; an enabled one gets the capped divider and its real output frequency |
| DividerCalc.ChannelDividerIntegral | logic/DividerCalc.py:155-165 | when fvco is d times 2f with d <= 4096, the channel gets NN = d, ND = 1, R = 2 and produces exactly f |
| DividerCalc.ChannelDividerZeroError | logic/DividerCalc.py:155-165 | when fvco/2f is not whole, a search that is exact at multiplier 1 gives NN = fvco, ND = 2f |
| DividerCalc.ChannelDividerExample | logic/DividerCalc.py:155-165 | a 20 MHz output on a 14 GHz fvco divides by NN = 350, ND = 1, R = 2 |
| DividerCalc.DivideChannel | logic/DividerCalc.py:148-172 | the body of the channel loop, through the search and the cap methods, computes the reference divider |
| DividerCalc.CalcChannelDivider | logic/DividerCalc.py:146-174 | every channel gets its reference divider, and nothing else changes |
| DividerCalc.BreakShift | logic/DividerCalc.py:185-193 | the shift loop breaks at the first failing test, or runs out after 56 |
| DividerCalc.BreakShiftAt | logic/DividerCalc.py:185-193 | the break shift is the first shift whose test fails |
| DividerCalc.ScaleM | logic/DividerCalc.py:196-197 | MN = fvco * 2^s and MD = int(5 Fpfd * 2^s) |
| DividerCalc.PhaseDetectorFits | logic/DividerCalc.py:180-198 | with the corrected width test, MN and MD fit their 56-bit and 32-bit fields |
| DividerCalc.ScaleMFits | logic/DividerCalc.py:187-190 | any shift that passes the corrected test keeps MN and MD in their fields |
| DividerCalc.PhaseDetectorAsWrittenOverflows | logic/DividerCalc.py:188-189 | as written, when 5 Fpfd is exactly 2^a, MD reaches 2^32, which the 32-bit M_DEN field cannot hold |
| DividerCalc.CalcPhaseDetectorDivider | logic/DividerCalc.py:180-198 | the shift loop with the corrected test computes the reference MN and MD |
| DividerCalc.SingleInputPn | logic/DividerCalc.py:207 | PN = ceil(f / 2 MHz) is the least divider that brings f down to 2 MHz or below |
| DividerCalc.InputSingleKeeps | logic/DividerCalc.py:205-218 | `inputConfigurationSingle` changes only that input's PN and PD, Fpfd, MN and MD |
| DividerCalc.InputSingleFpfd | logic/DividerCalc.py:207-211 | a single input is divided down to the largest phase detector frequency within 2 MHz, and Fpfd * PN recovers f |
| DividerCalc.InputConfigurationSingle | logic/DividerCalc.py:205-218 | the single-input configuration through the shift loop computes the reference result, with the corrected `>=` width test (see Findings) |
| DividerCalc.SingleInputOverflowExample | logic/DividerCalc.py:188-197 | an input of 8388608 Hz divides by PN = 5, so ceil(5 Fpfd) = 2^23, and the shift as written yields MD = 2^32 |
| DividerCalc.FallbackIndex | logic/DividerCalc.py:267-268 | the fallback uses input 0 when it is enabled, else input 1 |
| DividerCalc.GcdPfd | logic/DividerCalc.py:253-255 | Fpfd is the gcd, divided by ceil(gcd / 2 MHz) when the gcd exceeds 2 MHz, and is then within 2 MHz |
| DividerCalc.InputMultiNone | logic/DividerCalc.py:233-237 | without an enabled input only MN, MD and the input dividers change, all to 0 |
| DividerCalc.InputMultiGcd | logic/DividerCalc.py:242-264 | with both inputs on a gcd of at least 20 kHz, both divide exactly onto one phase detector frequency within 2 MHz, with PD = 1 |
| DividerCalc.InputMultiFallback | logic/DividerCalc.py:246-248 | otherwise the fallback input is configured alone |
| DividerCalc.InputMultiExample | logic/DividerCalc.py:242-264 | inputs of 10 MHz and 15 MHz share a 5 MHz gcd, divided by 3 to 5/3 MHz, giving PN = 6 and 9 |
| DividerCalc.InputMultiKeeps | logic/DividerCalc.py:231-269 | `inputConfigurationMulti` changes only the inputs, Fpfd, MN and MD |
| DividerCalc.ZeroInputDividers | logic/DividerCalc.py:235-236 | the loop sets every PN and PD to 0 |
| DividerCalc.DivideInputs | logic/DividerCalc.py:257-259 | the loop sets every PN = round(f / Fpfd) and PD = 1 |
| DividerCalc.InputConfigurationMulti | logic/DividerCalc.py:231-269 | the input configuration through `floatGcd`, the input loops and the shift loop computes the reference result, with the corrected `>=` width test (see Findings) |
| DividerCalc.DoubledMembers | logic/DividerCalc.py:281-285 | the collected frequencies are exactly twice the frequencies of the enabled channels |
| DividerCalc.DividerNoChannel | logic/DividerCalc.py:289-296 | with no enabled channel only the channel dividers change, each to 0, and neither fvco nor the inputs are computed |
| DividerCalc.DividerSetsPll | logic/DividerCalc.py:298-299 | with an enabled channel, fvco lies within 14 GHz and at or above every doubled channel frequency |
| DividerCalc.DividerKeepsPll | logic/DividerCalc.py:298-305 | the PLL settings `findFPLL` chooses and the divided channels survive the input configuration |
| DividerCalc.DividerExactChannels | logic/DividerCalc.py:298-305 | when the lcm of the doubled frequencies is within 14 GHz, every enabled channel whose divider is at most 4096 is produced exactly |
| DividerCalc.CollectFrequencies | logic/DividerCalc.py:281-285 | the loop collects twice the frequency of every enabled channel, in order |
| DividerCalc.ResetChannelDividers | logic/DividerCalc.py:291-295 | the loop resets NN, ND, R and realFrequency of every channel |
| DividerCalc.CalcDivider | logic/DividerCalc.py:278-311 | `calcDivider`, through its loops and the methods of each step, computes the reference result, with the corrected `>=` width test (see Findings) |
| Util.FloatLcm | Util.py:111-116 | one value is returned as it is; otherwise the result is a common multiple of the values that divides every common multiple |
| Util.FloatGcd | Util.py:122-129 | Euclid's loop, stopped once the remainder is within 0.001, returns gcd(a, b) for whole numbers |
| Util.FloatGcdIsGreatest | Util.py:122-129 | that gcd divides both numbers and every common divisor divides it |
| Util.StyleText | Util.py:22-31 | the result opens with "<b>" when bold and with "<font" otherwise, and closes with "</b>" or "</font>" to match; it has no line break when the colour has none, and a one-line text appears unchanged between the tags |
| Util.StyleTextLines | Util.py:22-31 | between its tags the result holds the text's lines, split at each line break and joined with "<br>" |
| Text.ReplaceSplit | Util.py:31 | `s.replace(c, w)` for one character c equals `w.join(s.split(c))` |
| Util.ReportTextInjective | Util.py:56-65 | the four input reports LOCK, No signal, Signal and off read differently |
| Util.LockHeader | Util.py:46-51 | the headline opens in bold |
| Util.LockHeaderWords | Util.py:46-51 | the headline is bold 30 px tags with colour red around "NO LOCK" when the lock is lost, else colour green around "LOCKED", then "<br>"; the chosen word occurs in it |
| Util.HeadlineWord | Util.py:22-31 | a one-line bold text followed by "<br>" is the word between the bold font tags of its size and colour, and the word occurs in it |
| Util.LockText | Util.py:37-68 | "No input configured" exactly when no input is enabled, "No output configured" exactly when an input but no channel is enabled |
| Util.LockReportsAgree | Util.py:53-57 | at most one input is reported as LOCK, and none when the lock is lost |
| Util.PrintLocked | Util.py:37-68 | the loop over the inputs builds exactly the reference text |
| Util.VoltIndex | Util.py:102-103 | the position of the voltage among the voltage options |
| Util.PrintFormat | Util.py:96-105 | the type and a line break; for the LVCMOS types also "volt: ", the supply voltage, "term: " and the termination option |
| Status.FlagSetIsBit | logic/Status.py:15-18 | testing against the mask 1 << j reads bit j |
| Status.Status.constructor | logic/Status.py:13-18 | los[i] is bit i and oof[i] bit 4 + i of byte 0, lol is bit 1 and hold bit 5 of byte 1, input stays -1, and the lists written are the shared class-level lists |
| SpiConnection.Connection.constructor | logic/SpiConnection.py:48-51 | opening the connection selects page 0 and reads two bytes from 0x02 |
| SpiConnection.Connection.SetPage | logic/SpiConnection.py:64-68 | `__setPage(page)` sends [0x00, 0x01] and then [0x40, page] |
| SpiConnection.Connection.ReadBytes | logic/SpiConnection.py:78-92 | sends [0x00, start, 0xA0, 0x00] and n - 1 times [0xA0, 0x00], and returns reply byte 3 and then byte 1 of each later reply |
| SpiConnection.Connection.ReadStatus | logic/SpiConnection.py:95-103 | reads seven bytes from 0x0D on page 0 and one byte from 0x07 on page 5, decodes the status from the first two, and sets input to the last byte >> 6 |
| SpiConnection.Connection.BurstWrite | logic/SpiConnection.py:110-117 | selects page addr0 div 256 and sends [0xE0, addr0 mod 256] followed by the data bytes |
| SpiConnection.Connection.WriteList | logic/SpiConnection.py:134-150 | the list goes out as one burst per run of consecutive addresses on one page |
| SpiConnection.Connection.WriteRegister | logic/SpiConnection.py:155-164 | the preamble, the 300 ms wait, the data and postamble2, in that order |
| SpiConnection.RunsNonEmpty | logic/SpiConnection.py:134-150 | every run holds a register |
| SpiConnection.RunsFlatten | logic/SpiConnection.py:134-150 | putting the runs end to end gives the list back |
| SpiConnection.RunsConsecutive | logic/SpiConnection.py:139-143 | inside every run each address follows the one before it on the same page |
| SpiConnection.RunsMaximal | logic/SpiConnection.py:139-147 | between two runs the next address does not follow on the same page, so the runs are maximal |
| SpiConnection.PreambleBursts | logic/SpiConnection.py:26 | the preamble is two bursts: page 0x0B [0xE0, 0x24, 0xC0, 0x00], then page 0x05 [0xE0, 0x40, 0x01] |
| SpiConnection.Postamble2Bursts | logic/SpiConnection.py:29 | postamble2 is four bursts, at 0x0514, 0x001C, 0x0540 and 0x0B24-0x0B25 |
| Messages.ClearFlagsMessage | Worker.py:92-104 | the nine sticky flags of a fresh map at value 0 give the transfer list [(0x11,0), (0x12,0), (0x13,0), (0x14,0)] |
| Messages.PowerDownMessage | Worker.py:146-148 | PDN of a fresh map set to 1 gives exactly [(0x001E, 0x01)] |
| Messages.ClearFlagsList | Worker.py:92-104 | `buildTransferList` of the nine flags computes that list |
| Messages.PowerDownList | Worker.py:146-148 | `message.bytes()` of PDN computes that list |
| Worker.Admit | Worker.py:58-74 | an operation starts exactly when the worker is idle; a busy worker queues it while fewer than 10 wait and otherwise drops it |
| Worker.AdmitKeepsQueue | Worker.py:69-74 | a submission never pushes the queue past ten, and never reorders or removes a waiting operation |
| Worker.AdmitOrder | Worker.py:69-71 | a queued operation runs after every operation already waiting |
| Worker.WriteConfigSteps | Worker.py:110-138 | the steps of `__writeConfig` send the transfer list of its registers |
| Worker.OutputsOffDuringWrite | Worker.py:117-132 | the outputs are switched off before the register write and on again after it |
| Worker.Worker.Submit | Worker.py:58-74 | `__threadingWrapper` admits as Admit says, and returns whether the operation started |
| Worker.Worker.CheckQueue | Worker.py:220-232 | `__checkQueue` runs the waiting operations front first, each once, until the queue is empty |
| Worker.Worker.Run | Worker.py:27-215 | on the Raspberry Pi (arm) branch every operation ends by draining the queue, `__updateStatus` through `__clearFlags` |
| Worker.Worker.SendClearFlags | Worker.py:91-104 | `__clearFlags` writes the cleared flag bytes |
| Worker.Worker.SendPowerDown | Worker.py:143-150 | `__powerDown` writes the PDN byte and switches the six LEDs off |
| Worker.Worker.WriteConfiguration | Worker.py:110-136 | `__writeConfig` logs "disable output", "set voltage", "write register", "enable output" and "finished" around its steps, in that order |
| Worker.Worker.RequestWriteConfig | Worker.py:79-80 | `writeConfig(conf)` submits `__writeConfig` with the registers of the configuration's map |
| RegisterFile.ParseAllLines | writeRegisterFile.py:48-50 | the parse succeeds exactly when every line parses, and then the k-th pair is the k-th line's |
| RegisterFile.ReadRegister | writeRegisterFile.py:38-51 | `readRegister` returns the parsed register block between the "configuration registers" markers, or the error Python raises |
| RegisterFile.ReadBlocks | writeRegisterFile.py:41-51 | the loop toggles reading at each marker and parses only the lines read while reading is on |
| RegisterFile.RegisterLines | writeRegisterFile.py:43-48 | no marker line is parsed, and no more lines are parsed than there are |
| RegisterFile.ParseAll | writeRegisterFile.py:49-50 | a successful parse has one pair per line |
| RegisterFile.RegisterLinesConcat | writeRegisterFile.py:43-48 | reading a + b reads a, then b from the toggle state a leaves |
| RegisterFile.NoMarkerLines | writeRegisterFile.py:44-48 | lines without a marker are all parsed while reading and all skipped otherwise |
| RegisterFile.NoBlockNoRegisters | writeRegisterFile.py:41-48 | a file without a marker line yields no register, since reading starts off |
| RegisterFile.DumpBlock | writeRegisterFile.py:41-51 | header, marker, body, marker, trailer yields exactly one pair per body line, in order |
| FormatConfig.CollisionMembers | dialog/FormatConfig.py:126-145 | a channel collides exactly when it is not the edited one and is an LVCMOS type, or is HCSL and the new voltage is 1.8 V; LVDS and LVPECL never collide |
| FormatConfig.ListVoltageCollisions | dialog/FormatConfig.py:126-145 | the loop computes the collisions in channel order |
| FormatConfig.OutputListAsWritten | dialog/FormatConfig.py:188-190 | the list as written names only the first max(1, n - 1) collisions |
| FormatConfig.OutputListMissesLast | dialog/FormatConfig.py:188-190 | two collisions, on channels 1 and 2, are listed as "1" |
| FormatConfig.OutputList | dialog/FormatConfig.py:188-190 | the corrected list has one item per collision, and each item reads back as its channel's index |
| FormatConfig.ListNamesAll | dialog/FormatConfig.py:188-190 | every index comes back, in order, from the corrected list |
| FormatConfig.ResetImpedance | dialog/FormatConfig.py:92-94 | a termination index the voltage does not offer becomes 0, one that fits is kept, and nothing else changes |
| FormatConfig.AcceptedHasNoHcslCollision | dialog/FormatConfig.py:153-166 | after accepting a voltage no HCSL channel collides with it any more |
| FormatConfig.FormatDialog.constructor | dialog/FormatConfig.py:302-310 | opening the dialog runs the impedance reset on the given configuration |
| FormatConfig.FormatDialog.UpdateUI | dialog/FormatConfig.py:60-95 | the termination index is reset when it does not fit the voltage |
| FormatConfig.FormatDialog.FormatSelectionChange | dialog/FormatConfig.py:100-119 | an LVCMOS type above 250 MHz is rejected and changes nothing; any other choice becomes the channel's type |
| FormatConfig.FormatDialog.TerminationSelectionChange | dialog/FormatConfig.py:212-216 | the edited channel's termination index becomes i, then reset if it does not fit |
| FormatConfig.FormatDialog.VoltageSelectionChange | dialog/FormatConfig.py:175-209 | no warning exactly when nothing collides, and then vddo becomes the voltage; otherwise nothing changes and the warning names the collisions, with the corrected list that names all of them (see Findings) |
| FormatConfig.FormatDialog.VoltageCollisionCallback | dialog/FormatConfig.py:151-168 | agreeing at 1.8 V turns the colliding HCSL channels into LVDS, and agreeing sets vddo; declining changes nothing |
| FormatConfig.FormatDialog.ConvertCollisions | dialog/FormatConfig.py:159-163 | the loop turns each HCSL collision into LVDS |
| FreqPicker.KeypadParses | dialog/FreqPicker.py:33-37 | a keypad text (leading blanks, as printFreq's right-aligned field gives, then digits with at most one point) strips to its body, and a text whose body is not empty is a number `float` accepts |
| FreqPicker.PaddedValue | dialog/FreqPicker.py:134-140 | any text of blanks in front of a keypad body is a keypad text with the body's value, so "   20.0" reads as 20 |
| FreqPicker.BodyValue | dialog/FreqPicker.py:33-37 | the value of a keypad text is the value of its stripped body |
| FreqPicker.AppendDigitValue | dialog/FreqPicker.py:40-47 | a digit typed after a whole number, padded or blank, multiplies it by ten and adds the digit |
| FreqPicker.DigitKey | dialog/FreqPicker.py:40-47 | a digit key keeps the text a keypad text, whether it replaces "0" or is appended, and on a whole number gives ten times the old value plus the digit |
| FreqPicker.PointKeepsValue | dialog/FreqPicker.py:50-58 | a point after a non-blank whole number keeps the text a keypad text and its value unchanged |
| FreqPicker.PointOnBlank | dialog/FreqPicker.py:51-57 | "0." after a blank text, empty or not, gives a keypad text that reads as 0 |
| FreqPicker.DropLast | dialog/FreqPicker.py:61-65 | removing the last character of a keypad text leaves a keypad text |
| FreqPicker.Scaled | dialog/FreqPicker.py:104-109 | the value is scaled by 1000 for kHz, by 1000000 for MHz and by 1 otherwise |
| FreqPicker.Picker.constructor | dialog/FreqPicker.py:134-140 | a zero frequency shows "0" Hz, and any other shows its formatted value and unit, which may be padded with blanks in front |
| FreqPicker.Picker.UpdateFreq | dialog/FreqPicker.py:33-37 | when the stripped text is not empty the frequency becomes `float` of the text, which exists; otherwise it becomes 0 |
| FreqPicker.Picker.NumberClicked | dialog/FreqPicker.py:40-47 | the digit replaces a text of exactly "0" and is appended to any other; on a whole number the frequency becomes ten times the old value plus the digit |
| FreqPicker.Picker.PointClicked | dialog/FreqPicker.py:50-58 | a point is added only when there is none: "0." after a text that strips to nothing, "." after any other; the frequency keeps the old text's value |
| FreqPicker.Picker.DeleteClicked | dialog/FreqPicker.py:61-65 | the last character is removed and the frequency follows the new text; an empty text and its frequency stay as they are |
| FreqPicker.Picker.HertzClicked | dialog/FreqPicker.py:68-71 | the unit becomes the chosen one |
| FreqPicker.Picker.OkClicked | dialog/FreqPicker.py:76-114 | the scaled value is handed on exactly when min <= value <= max |

## Left out

- The register table holds a representative subset of fields. The rest of `RegisterMap.__init__` is data the model does not use. Register descriptions and the `__str__` and `listToString` formatting are left out too.
- `setOOF`, `setLOL` and `setHSWConfig` only assign constants to fields outside the modelled table, so their stages are left out. `calcBW4` is left out for the same reason.
- `setPhaseChange` is left out. It is never called, and it refers to fields the register map does not declare.
- The `.FSTEPW = 0` assignment in `setOutputDivider` creates an attribute that is not a register, which `getRegs` ignores. The model likewise writes nothing there.
- The "raise fvco to 95 %" correction in `findFPLL` is left out. It rests on `log2` of floats.
- Util.FloatLcm, DividerCalc.TargetFvco, DividerCalc.FpllCoversFrequencies: the lcm is exact. `np.lcm.reduce` works on int64 and wraps around silently above 2^63 - 1: 1000003, 1000033 and 1000037 Hz, scaled by 10 for one decimal place, have an lcm of about 1.00007e19, which wraps to a negative number. That number passes the test against 14 GHz, so Python's `targetFvco` differs from the model's. The wrap-around is not modelled, and the model's statements about the lcm assume it does not happen.
- Model frequencies are exact, so float rounding is not modelled. Neither is the decimal-string scaling in `floatLCMNP`, which the model applies only to whole numbers.
- `printFreq` is left out because it formats floats.
- DividerCalc.InputsConfigurable, DividerCalc.FrequenciesInRange, DividerCalc.Dividable, SetRegister.Compilable: inputs on which the program raises are excluded by these preconditions rather than modelled as error results. They are an enabled input or channel of frequency 0 (ZeroDivisionError, for example at logic/DividerCalc.py:211 once PN = ceil(0 / 2 MHz) = 0), a divider that rounds to 0, an output index of 4 or more (IndexError in `setRegister`), a divider too wide for its field (a negative shift count, ValueError), and, once any input is enabled, an input with a negative index such as the default -1 of `Input()` (ValueError from the negative shift count of `1 << input.index*2`, logic/SetRegister.py:158 for an enabled input and logic/SetRegister.py:639 for every input). The model does not prove that the configuration `Divider` computes meets `Compilable`.
- DividerCalc.BestDivider, DividerCalc.ChannelDivider: the search's error is a parameter. Exact arithmetic would make it zero at multiplier 1, so the lemmas state both the general search and the exact case. Rounding effects of floats are not modelled.
- Hardware I/O is modelled as data:
  - `spidev` transfers become events on a trace.
  - The reply bytes are a given stream.
  - The 300 ms wait is a trace marker.
  - The inter-command delay, the read-back check and the GPIO, LED and voltage calls are steps in the worker's log.
  - logic/GPIOControl.py is not part of this model.
- The worker thread is a busy flag, and `Finish` stands for the thread running to its end. Signals, `is_alive` timing, `RepeatTimer` and the start-up race on `self.queue` are left out.
- Worker.Worker.Submit: an operation is a value, not a Python callable with arguments.
- Worker.Worker.RequestWriteConfig: the registers to send are fixed when the write is queued. Python queues the configuration object itself, and `__writeConfig` builds `conf.regMap.buildTransferList()` only when it runs (Worker.py:80 and :115). TaktUi.py:81-93 goes on assigning a new register map to that object, so a write still waiting in the queue sends the registers of the later map. The model does not capture that aliasing.
- Worker.Worker.Run, Worker.OpSteps: only the Raspberry Pi branch (`"arm" in platform.machine()`) is modelled. On a desktop `__updateStatus` returns at Worker.py:28 without reading the status, clearing the flags or draining the queue. There `__start` only logs "reset gpio", "enable led" and "ready", and the other operations call methods of a `None` GPIO or SPI object.
- `exit` and `__exit` (Worker.py:162-186) are left out: they cancel the timer, power down, close the GPIO and SPI objects and quit the Qt application.
- Worker.Worker.Perform: the `lockUpdate` signal is a `LockUpdate` step without its text; that text is `Util.printLocked` of the status read, which Util.PrintLocked models.
- `readRegister` takes the file's lines as a sequence. Opening the file, the hardware sequence of the stand-alone writer and its undefined `Test()` entry point are left out.
- RegisterFile.ReadRegister: errors carry a fixed message text, not Python's exact exception text.
- The Qt widgets of both dialogs are left out: items, visibility and the dialog boxes with their messages. So are pickle persistence and the other UI files.
- FormatConfig.FormatDialog: the `lock` re-entrancy guard is left out. The warning's text models only the channel list, not the rest of the message.
- FreqPicker.Picker.constructor: the text of a non-zero initial frequency is a parameter, since it comes from `printFreq`. It may be any keypad text, so the blanks of printFreq's seven-character right-aligned field are admitted ("   20.0"), but the constructor requires it to be one: a quotient that Python writes in exponent form (a value of 1e16 or more in the chosen unit, "1e+16") or as "inf" is not modelled.

## Findings

| source | as written | input that shows it | evidently intended | confidence | as-written member | corrected member |
|---|---|---|---|---|---|---|
| dialog/FormatConfig.py:188-190 | the loop `range(1, len(collisions)-1)` leaves out the last collision from the channel list of the warning | collisions on channels 1 and 2 give the list "1" | every colliding channel is named, so the list is "1, 2" | high, not executed | FormatConfig.OutputListMissesLast | FormatConfig.ListNamesAll |
| logic/DividerCalc.py:188-189 | the width test `(ceil(Ftmp) << shift) > 2**32` lets MD reach exactly 2^32, which the 32-bit M_DEN field cannot hold | one input of 8388608 Hz: PN = 5, 5 Fpfd = 2^23, shift 9, MD = 2^32 | MD stays below 2^32, that is the test is `>=` | high, not executed | DividerCalc.PhaseDetectorAsWrittenOverflows | DividerCalc.PhaseDetectorFits |
