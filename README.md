# rtlsdrjs driver core in Dafny

This project models the core of rtlsdrjs, a driver for RTL2832U-based USB
software-defined-radio sticks with an R820T tuner. The model is layered
as the driver is:

- `RtlCom` (`rtlcom.dfy`) covers the register protocol over USB control
  transfers. It has demodulator, USB, system and I2C register blocks,
  little- and big-endian number buffers, masked writes, the I2C repeater
  and command batches.
- `R820T` (`r820t.dfy`) holds the pure arithmetic and register effects of
  the tuner. That covers the bit reversal of read-back bytes, masked writes
  into the shadow register bank, the band multiplexer table, the PLL
  divider and sigma-delta values, and the gain table.
- `R820TTuner` (`tuner.dfy`) is the tuner object: a class holding the
  shadow `array` of registers 0x05-0x1f and the `hasPllLock` flag. Its
  methods are init, setFrequency, setPll, getPllLock, calibrateFilter,
  initElectronics, the gain settings and close.
- `Rtl2832u` (`rtl2832u.dfy`) is the demodulator object. It covers open
  and its tuner probe, the IF frequency shift, setSampleRate,
  setCenterFrequency, the buffer reset, sample reads and close.
  `Rtl2832uProps` (`rtl2832u_props.dfy`) proves what its operations send.

`Transport` (`transport.dfy`) stands in for the USB device. A `Connection`
keeps the trace of the transfers sent so far and a queue of the replies the
device will give to IN transfers. An IN transfer fails when no reply is
queued. `Bits` (`bits.dfy`) holds bit arithmetic and `Errors`
(`errors.dfy`) the shared `Option` and `Result` types.

Each operation is specified by a pure function of the queued replies:
- a `Step` for the register protocol: the transfers sent, the replies used
  and the result;
- a `Run` for the tuner, which also carries the register bank and lock flag
  it leaves.

Each method's `ensures` ties the new trace, queue and object state to that
function (`Did`, `Performs`, `Tuner.Does`). The lemmas then state what the
functions send and compute.

## Model

| member | source | states |
|---|---|---|
| RtlCom.WriteIndexBits | lib/rtlcom.js:31 | a write index has the write flag 0x10 set and the block's own bits otherwise |
| RtlCom.WriteIndexValues | lib/rtlcom.js:39-41 | the write indices of the demodulator block, block 1 and the USB, system and I2C blocks are 0x010, 0x011, 0x110, 0x210 and 0x610 |
| RtlCom.DemodAddressFields | lib/rtlcom.js:101-103 | a demodulator register value has the address as high byte and 0x20 as low byte |
| RtlCom.NumberToBuffer | lib/rtlcom.js:202-215 | encoding succeeds exactly for widths 1, 2 and 4, giving that many bytes; any other width is an encoding error |
| RtlCom.BufferToNumber | lib/rtlcom.js:181-194 | an empty buffer decodes to no value, buffers of 1, 2 or 4 bytes decode to a value below 256^length, and other lengths are an encoding error |
| RtlCom.LeBytesValue | lib/rtlcom.js:188-191 | the little-endian bytes of a value below 256^n decode back to that value |
| RtlCom.LeValueBytes | lib/rtlcom.js:188-191 | decoding n bytes and encoding the value again gives the same bytes |
| RtlCom.BeBytesReversed | lib/rtlcom.js:202-212 | the big-endian bytes are the little-endian bytes in reverse order |
| RtlCom.NumberRoundTrip | lib/rtlcom.js:181-215 | for widths 1, 2 and 4, decoding the little-endian encoding of a value that fits gives the value back |
| RtlCom.BufferRoundTrip | lib/rtlcom.js:181-215 | re-encoding a decoded 1-, 2- or 4-byte buffer gives the same buffer |
| RtlCom.BigEndianReversed | lib/rtlcom.js:202-215 | the big-endian buffer of a value is its little-endian buffer reversed |
| RtlCom.EncodeOneByte | lib/rtlcom.js:205-206 | a one-byte buffer holds the value modulo 256, in either byte order |
| RtlCom.EncodeTwoBytes | lib/rtlcom.js:207-208 | a two-byte big-endian buffer holds the high byte first and the low byte second |
| RtlCom.ReadCtrlLength | lib/rtlcom.js:223-247 | a control read asks for at least 8 bytes and at least the requested length, and returns at most the requested length, as a prefix of the device's reply |
| RtlCom.RegisterIndices | lib/rtlcom.js:61-74 | a register write goes to the block's write index with the encoded value, and a register read to the block with an 8-byte request |
| RtlCom.MaskedWriteFullMask | lib/rtlcom.js:83-85 | with mask 0xff a masked write is one plain write of the value and reads nothing |
| RtlCom.MaskedWriteRead | lib/rtlcom.js:86-92 | with any other mask it reads the register once, using one reply, and writes the merged byte, with an empty reply counting as 0 |
| RtlCom.OneByteRead | lib/rtlcom.js:72-74 | a one-byte register read uses one reply and yields its first byte, or no value when the reply is empty |
| RtlCom.MaskedWriteKeepsBits | lib/rtlcom.js:88-90 | each bit of the written byte comes from the value where the mask is set and from the old register elsewhere |
| RtlCom.MaskedWriteReadFails | lib/rtlcom.js:86-87 | when the read of a masked write fails, nothing is written and the transport error is returned |
| RtlCom.OneByteWrite | lib/rtlcom.js:61-63 | a one-byte write of a byte sends exactly that byte |
| RtlCom.DemodWriteShape | lib/rtlcom.js:112-115 | a demodulator write sends the big-endian value and then reads one byte at address 0x01 of page 0x0a |
| RtlCom.I2CRepeater | lib/rtlcom.js:120-129 | opening and closing I2C write 0x18 and 0x10 to demodulator page 1, address 1, each followed by a status read, and succeed exactly when a reply is queued |
| RtlCom.I2CFraming | lib/rtlcom.js:136-174 | I2C register accesses go to the I2C block, with the register number in front of the written data |
| RtlCom.BatchAppend | lib/rtlcom.js:323-338 | running a+b runs a, then runs b on the remaining replies unless a failed |
| RtlCom.BatchExtend | lib/rtlcom.js:323-338 | running the first i+1 lines is running the first i lines and then line i |
| RtlCom.UnknownCommandStops | lib/rtlcom.js:334-336 | an unknown command ends the batch with a protocol error after the lines before it |
| RtlCom.BatchStopsAt | lib/rtlcom.js:323-338 | once a batch prefix fails, the whole batch is that prefix: nothing later is sent |
| RtlCom.BatchAdvance | lib/rtlcom.js:323-338 | a line that succeeds extends the batch prefix done so far, and a line that fails ends the whole batch with its error |
| RtlCom.DemodBatch | lib/rtlcom.js:330-331 | a batch of demodulator writes with a reply for each sends the writes and status reads in order and uses one reply per line |
| RtlCom.DemodBatchShort | lib/rtlcom.js:330-331 | with fewer replies than demodulator writes the batch fails |
| RtlCom.RegBatch | lib/rtlcom.js:326-327 | a batch of register writes sends them in order, uses no reply and succeeds |
| RtlCom.I2CBatch | lib/rtlcom.js:332-333 | a batch of I2C writes sends them in order, uses no reply and succeeds |
| RtlCom.Com.ReadCtrlMsg | lib/rtlcom.js:223-247 | the link's trace and queue advance as the control-read step says |
| RtlCom.Com.WriteCtrlMsg | lib/rtlcom.js:255-278 | one control OUT transfer is appended and nothing is consumed |
| RtlCom.Com.WriteRegBuffer | lib/rtlcom.js:39-41 | the link advances as the buffer-write step says |
| RtlCom.Com.ReadRegBuffer | lib/rtlcom.js:50-52 | the link advances as the buffer-read step says |
| RtlCom.Com.WriteReg | lib/rtlcom.js:61-63 | the link advances as the register-write step says |
| RtlCom.Com.ReadReg | lib/rtlcom.js:72-74 | the link advances as the register-read step says |
| RtlCom.Com.WriteRegMask | lib/rtlcom.js:83-93 | the link advances as the masked-write step says |
| RtlCom.Com.ReadDemodReg | lib/rtlcom.js:101-103 | the link advances as the demodulator-read step says |
| RtlCom.Com.WriteDemodReg | lib/rtlcom.js:112-115 | the link advances as the demodulator-write step says |
| RtlCom.Com.OpenI2C | lib/rtlcom.js:120-122 | the link advances as the repeater-open step says |
| RtlCom.Com.CloseI2C | lib/rtlcom.js:127-129 | the link advances as the repeater-close step says |
| RtlCom.Com.ReadI2CReg | lib/rtlcom.js:136-139 | the link advances as the I2C register-read step says |
| RtlCom.Com.WriteI2CReg | lib/rtlcom.js:148-150 | the link advances as the I2C register-write step says |
| RtlCom.Com.ReadI2CRegBuffer | lib/rtlcom.js:158-161 | the link advances as the I2C buffer-read step says |
| RtlCom.Com.WriteI2CRegBuffer | lib/rtlcom.js:169-174 | the link advances as the I2C buffer-write step says |
| RtlCom.Com.ReadBulk | lib/rtlcom.js:285-303 | one bulk IN transfer of the asked length, failing with a bulk error when no reply is queued |
| RtlCom.Com.ClaimInterface | lib/rtlcom.js:308-310 | the interface claim is appended to the trace |
| RtlCom.Com.ReleaseInterface | lib/rtlcom.js:315-317 | the interface release is appended to the trace |
| RtlCom.Com.WriteLine | lib/rtlcom.js:325-336 | one batch line is dispatched on its command as the line step says |
| RtlCom.Com.WriteEach | lib/rtlcom.js:323-338 | the lines run in order, stopping at the first failure, as the batch step says |
| R820T.ReverseBitsMirror | lib/r820t.js:329-332 | bit k of a reversed byte is bit 7-k of the byte |
| R820T.ReverseBitsInvolution | lib/r820t.js:329-332 | reversing a byte twice gives the byte back |
| R820T.ReverseBitsExamples | lib/r820t.js:58-59 | 0x00 and 0xff are their own reversal, and 0x12 reverses to 0x48 |
| R820T.NibbleMirror | lib/r820t.js:58-59 | the nibble table reverses the four bits of a nibble and is its own inverse |
| R820T.ShadowWrite | lib/r820t.js:342-347 | a masked write changes only its own shadow register, to the merged byte, and sends the register and that byte to the tuner |
| R820T.ApplyBits | lib/r820t.js:342-347 | after a masked write, the register's bits under the mask are the value's and the others are unchanged |
| R820T.WritesAppend | lib/r820t.js:353-358 | the writes a+b send and leave what a then b send and leave |
| R820T.ApplyAllUntouched | lib/r820t.js:353-358 | a register that no write addresses keeps its value |
| R820T.ElectronicsFilterCap | lib/r820t.js:119-146 | after the electronics set-up, bits 0-3 of 0x0a hold the filter capacitance and bit 4 is set |
| R820T.MuxIndex | lib/r820t.js:223-231 | the chosen row is one whose band contains the frequency: every later threshold up to it has been passed and the next one has not |
| R820T.MuxIndexUnique | lib/r820t.js:226-230 | only one row's band contains a given frequency |
| R820T.MuxBand | lib/r820t.js:223-231 | the chosen row starts at or below the frequency, and the next row starts above it |
| R820T.MuxExample | lib/r820t.js:37-53 | sample frequencies pick the expected rows of the table |
| R820T.FloorLog2 | lib/r820t.js:253 | the result is the largest k with 2^k * den <= num |
| R820T.DivNum | lib/r820t.js:253 | the divider exponent is floor(log2(1.77 GHz / freq)) capped at 6 |
| R820T.FineTuneOnlyDivider | lib/r820t.js:263 | whatever the fine-tune reading, the divider write goes to register 0x10 under mask 0xe0, so only bits 5-7 change |
| R820T.DividerRange | lib/r820t.js:253-254 | the mixer divider is 2 * 2^divNum, at most 128, and below the cap it puts the VCO above 1.77 GHz and at most 3.54 GHz |
| R820T.SdmUnclamped | lib/r820t.js:277 | the sigma-delta value is floor(32768 * vcoFra / pllRef), so the clamp never applies |
| R820T.DividerSplit | lib/r820t.js:264-266 | the VCO frequency is nint * 2 * pllRef + vcoFra, with 0 <= vcoFra < 2 * pllRef |
| R820T.IntegerRegister | lib/r820t.js:271-274 | for nint from 13 to 63, the byte ni + (si << 6) fits a byte and holds ni and si, with 4 * ni + si + 13 == nint |
| R820T.IntegerRegisterBelowRange | lib/r820t.js:271-274 | for nint 12, ni and si are both -1 and the byte written wraps to 0xbf |
| R820T.ActualFreqError | lib/r820t.js:284 | the reported frequency is at most the request and less than pllRef / (32768 * mixDiv) below it |
| R820T.PllExample | lib/r820t.js:253-284 | for a sample frequency, the computed divider, nint, sdm and register values |
| R820T.DividerRegisters | lib/r820t.js:271-281 | after the integer and sigma-delta writes, 0x14 holds ni + (si << 6), bit 3 of 0x12 is set exactly when vcoFra is 0, and 0x16 and 0x15 hold sdm's high and low bytes |
| R820T.IntegerRegisters | lib/r820t.js:271-276 | the integer writes put ni + (si << 6) in 0x14 and set bit 3 of 0x12 exactly when vcoFra is 0 |
| R820T.SdmRegisters | lib/r820t.js:277-281 | the sigma-delta writes put sdm's high byte in 0x16 and low byte in 0x15 and leave 0x14 and 0x12 alone |
| R820T.SdmBytes | lib/r820t.js:279-281 | writing the two bytes of any value below 65536 leaves them in 0x16 and 0x15 and leaves 0x14 and 0x12 alone |
| R820T.GainStep | lib/r820t.js:164-175 | the gain index is the rounded gain curve, clamped to 0..30 |
| R820T.GainSplit | lib/r820t.js:176-177 | the LNA and mixer values add up to the gain index minus 1, the LNA value is equal or one more, and the mixer value is -1 exactly at index 0 |
| R820T.ManualGainRegisters | lib/r820t.js:178-184 | manual gain sets bit 4 of 0x05, clears bit 4 of 0x07, and puts the LNA and mixer values in their low nibbles, the mixer's all ones at index 0 |
| R820T.ManualGainManual | lib/r820t.js:179-180 | manual gain sets bit 4 of 0x05 and clears bit 4 of 0x07, switching the LNA and mixer to manual |
| R820T.ManualGainLna | lib/r820t.js:182 | the LNA value goes into the low four bits of 0x05 |
| R820T.ManualGainMixer | lib/r820t.js:183 | the mixer value goes into the low four bits of 0x07 |
| R820T.VcoFineTune | lib/r820t.js:257 | the fine-tune field is below 4 |
| R820T.FilterCap | lib/r820t.js:208-211 | the capacitance is at most 14, and 0 exactly when the low nibble is 0 or 15 |
| R820T.LockBitOnTheWire | lib/r820t.js:293-301 | the lock is seen exactly when bit 1 of the third byte on the wire is set, which is bit 6 after reversal |
| R820TTuner.InitRegistersBatch | lib/r820t.js:311-318 | the register bank goes out as one I2C batch that uses no reply and succeeds |
| R820TTuner.GetPllLockOutcome | lib/r820t.js:292-305 | a locked first read sets the flag, an unlocked first try writes 0x60 under mask 0xe0 to 0x12 and reads once more, and that second read decides |
| R820TTuner.LockKeeps | lib/r820t.js:292-305 | the lock check changes no register but 0x12, and not bit 3 of 0x12 |
| R820TTuner.LockFailsOnlyOnRead | lib/r820t.js:292-305 | the lock check fails only when a transfer fails |
| R820TTuner.PllBailOut | lib/r820t.js:264-270 | when nint exceeds 63, setPll clears the lock flag, returns no frequency and sends nothing after the divider write |
| R820TTuner.PllRegisters | lib/r820t.js:271-285 | a successful setPll returns the synthesized frequency and leaves 0x14, 0x12, 0x15, 0x16 and 0x1a as the PLL values require |
| R820TTuner.PllResult | lib/r820t.js:267-285 | setPll reports a frequency only when nint is at most 63, and then it is the synthesized one |
| R820TTuner.PllFailsOnlyOnRead | lib/r820t.js:246-286 | setPll fails only when a transfer fails |
| R820TTuner.CalibrateOutcome | lib/r820t.js:191-217 | a successful calibration leaves the PLL locked and a capacitance of at most 14, and a PllNotLocked failure leaves the flag clear |
| R820TTuner.CalibrateRetriesOnce | lib/r820t.js:212-216 | calibration with the retry allowed runs a second pass only after a first pass that read a non-zero capacitance |
| R820TTuner.ElectronicsOutcome | lib/r820t.js:112-147 | after a successful initElectronics the PLL is locked, and the bank is the calibrated one with the set-up applied |
| R820TTuner.FrequencyRun | lib/r820t.js:85-88 | setFrequency is the multiplexer writes, then setPll on the bank they leave |
| R820TTuner.Check | lib/r820t.js:374-377 | the probe reads tuner register 0 and answers whether it read 0x69 |
| R820TTuner.Tuner.constructor | lib/r820t.js:25-69 | a new tuner shares the link and reference frequency, with no bank and no PLL lock yet |
| R820TTuner.Tuner.WriteRegMask | lib/r820t.js:342-347 | updates the shadow array in place and sends the merged byte |
| R820TTuner.Tuner.WriteEach | lib/r820t.js:353-358 | the masked writes are done in order on the same shadow array |
| R820TTuner.Tuner.ReverseEach | lib/r820t.js:329-332 | the buffer ends up bit-reversed byte by byte, in place |
| R820TTuner.Tuner.ReadRegBuffer | lib/r820t.js:326-334 | reads over I2C and returns the bytes bit-reversed, or the transfer error |
| R820TTuner.Tuner.GetPllLock | lib/r820t.js:292-305 | the bank, flag and link advance as the lock-check run says |
| R820TTuner.Tuner.SetPll | lib/r820t.js:246-286 | the bank, flag and link advance as the PLL run says |
| R820TTuner.Tuner.ProgramPll | lib/r820t.js:264-281 | the integer and sigma-delta part of setPll, as its run says |
| R820TTuner.Tuner.StartPll | lib/r820t.js:282-285 | the lock check and the returned frequency, as their run says |
| R820TTuner.Tuner.CalibratePass | lib/r820t.js:191-211 | one calibration pass, as its run says |
| R820TTuner.Tuner.Measure | lib/r820t.js:201-211 | the calibration trigger and capacitance read-back, as their run says |
| R820TTuner.Tuner.CalibrateFilter | lib/r820t.js:191-217 | filter calibration with at most one retry, as its run says |
| R820TTuner.Tuner.InitElectronics | lib/r820t.js:112-147 | preparation writes, calibration and set-up, as their run says |
| R820TTuner.Tuner.InitRegisters | lib/r820t.js:311-318 | a fresh shadow array holding the bank, which is also sent to the tuner |
| R820TTuner.Tuner.Init | lib/r820t.js:75-78 | the default bank is installed and sent, then initElectronics runs |
| R820TTuner.Tuner.SetMux | lib/r820t.js:223-240 | the band writes happen on the shadow array |
| R820TTuner.Tuner.SetFrequency | lib/r820t.js:85-88 | the multiplexer is set, then the PLL, as the frequency run says |
| R820TTuner.Tuner.SetAutoGain | lib/r820t.js:152-158 | the automatic-gain writes happen on the shadow array |
| R820TTuner.Tuner.SetManualGain | lib/r820t.js:164-185 | the manual-gain writes for the clamped gain index happen on the shadow array |
| R820TTuner.Tuner.Close | lib/r820t.js:93-107 | the shutdown writes happen on the shadow array |
| Rtl2832u.XtalFreq | lib/rtl2832u.js:126 | the corrected crystal frequency is positive for any correction above -10^6 ppm |
| Rtl2832u.XtalFreqBounds | lib/rtl2832u.js:126 | the corrected crystal frequency is the floor of 28.8 MHz * (1 + ppm / 10^6) |
| Rtl2832u.Multiplier | lib/rtl2832u.js:136 | the IF shift word is never positive |
| Rtl2832u.MultiplierBytes | lib/rtl2832u.js:140-142 | three bytes are written, the first masked to six bits |
| Rtl2832u.MultiplierFields | lib/rtl2832u.js:140-142 | the three bytes recombine into the shift word modulo 2^22, its two's-complement low 22 bits |
| Rtl2832u.MultiplierNominal | lib/rtl2832u.js:126-140 | for the nominal crystal the shift word is -519918 and the bytes are 0x38, 0x11 and 0x12 |
| Rtl2832u.RatioShape | lib/rtl2832u.js:169-170 | the ratio is a multiple of 4 below 2^28 and lies within 4 below floor(xtal * 2^22 / rate) taken modulo 2^28 |
| Rtl2832u.RatioFits | lib/rtl2832u.js:169-170 | for rates above 450 kHz floor(xtal * 2^22 / rate) fits the 28-bit field |
| Rtl2832u.RealRate | lib/rtl2832u.js:171 | the achieved rate is missing exactly when the cleared ratio is 0, where the division has no integer value |
| Rtl2832u.RealRateAtLeast | lib/rtl2832u.js:171 | when the quotient fits and the ratio is non-zero, the achieved rate is at least the requested one and the ratio times it does not exceed xtal * 2^22 |
| Rtl2832u.RatioExample | lib/rtl2832u.js:168-171 | 2.048 Msps gives the ratio 58982400, whose high word is 900, and exactly 2.048 Msps achieved |
| Rtl2832u.PpmOffset | lib/rtl2832u.js:172 | a non-negative correction gives a non-positive offset word |
| Rtl2832u.OffsetBytes | lib/rtl2832u.js:176-177 | the offset is written as a six-bit high part and a byte |
| Rtl2832u.OffsetFields | lib/rtl2832u.js:176-177 | the two offset bytes recombine into the offset modulo 2^14, its two's-complement low 14 bits |
| Rtl2832u.OffsetExamples | lib/rtl2832u.js:172-177 | a correction of 0 ppm writes 0x00, 0x00 and one of 1 ppm gives the offset -16 and writes 0x3f, 0xf0 |
| Rtl2832u.ApplyGain | lib/rtl2832u.js:155-161 | the writes for the given gain happen on the bound tuner |
| Rtl2832u.Finish | lib/rtl2832u.js:146-147 | the gain is set, then the I2C repeater is switched off |
| Rtl2832u.InitTuner | lib/rtl2832u.js:145-147 | the tuner's init, then the gain, then the repeater switched off |
| Rtl2832u.Bind | lib/rtl2832u.js:136-147 | the IF shift words, then the tuner set-up, as the set-up run says |
| Rtl2832u.Demodulator.constructor | lib/rtl2832u.js:66-70 | keeps the link, the correction and the gain, with no tuner bound |
| Rtl2832u.Demodulator.Prepare | lib/rtl2832u.js:76-128 | the link advances as the bring-up step up to the tuner probe says |
| Rtl2832u.Demodulator.Attach | lib/rtl2832u.js:129-147 | with no tuner found and none bound it fails with UnsupportedTuner and sends nothing; otherwise set-up runs on a fresh or the bound tuner |
| Rtl2832u.Demodulator.Open | lib/rtl2832u.js:75-147 | the link and the bound tuner advance as the open run says, and a tuner is created exactly when the probe answered |
| Rtl2832u.Demodulator.SetGain | lib/rtl2832u.js:155-161 | manual-gain writes for a non-zero gain, automatic-gain writes otherwise |
| Rtl2832u.Demodulator.SetSampleRate | lib/rtl2832u.js:168-181 | the link advances as the sample-rate step says |
| Rtl2832u.Demodulator.ResetDemodulator | lib/rtl2832u.js:186-191 | the link advances as the soft-reset step says |
| Rtl2832u.Demodulator.SetCenterFrequency | lib/rtl2832u.js:198-203 | the tuner and link advance as the centre-frequency run says |
| Rtl2832u.Demodulator.ResetBuffer | lib/rtl2832u.js:208-213 | the link advances as the buffer-reset step says |
| Rtl2832u.Demodulator.ReadSamples | lib/rtl2832u.js:222-224 | one bulk read of two bytes per sample |
| Rtl2832u.Demodulator.Close | lib/rtl2832u.js:229-234 | the tuner and link advance as the close run says |
| Rtl2832uProps.ResetShape | lib/rtl2832u.js:186-191 | the soft reset sends its two writes with their status reads and succeeds exactly when two replies are queued |
| Rtl2832uProps.ResetBufferShape | lib/rtl2832u.js:208-213 | the buffer reset sends its two endpoint-control writes, uses no reply and cannot fail |
| Rtl2832uProps.RateLinesOut | lib/rtl2832u.js:173-178 | the four sample-rate writes carry the ratio's high and low words and the two offset bytes |
| Rtl2832uProps.SampleRateShape | lib/rtl2832u.js:168-181 | setSampleRate succeeds exactly when six replies are queued, and then sends the four rate writes and the soft reset and reports the achieved rate |
| Rtl2832uProps.ZeroRate | lib/rtl2832u.js:169-180 | a rate of 0 still sends the four writes, with a ratio of 0, and the soft reset, and reports no rate where JavaScript returns Infinity |
| Rtl2832uProps.RepeaterSteps | lib/rtlcom.js:120-129 | switching the repeater on or off sends its write and a status read, uses one reply if any, and succeeds exactly when a reply is queued |
| Rtl2832uProps.ProbeAnswer | lib/r820t.js:374-377 | the probe reads tuner register 0, fails exactly when no reply is queued, and answers yes exactly when the reply starts with 0x69 |
| Rtl2832uProps.CloseShape | lib/rtl2832u.js:229-234 | close switches the repeater on, sends the shutdown writes, switches it off and releases the interface, succeeding exactly when two replies are queued |
| Rtl2832uProps.CenterFrequencyOrder | lib/rtl2832u.js:198-203 | setCenterFrequency opens the repeater, tunes, closes the repeater and returns the tuned frequency minus the IF |
| Rtl2832uProps.CenterFrequencyShift | lib/rtl2832u.js:200-202 | the tuner is tuned IF_FREQ above the requested frequency |
| Rtl2832uProps.MultiplierLinesOut | lib/rtl2832u.js:137-144 | the six-line batch after the probe sends its writes in order, with the shift word's three bytes going to registers 0x19-0x1b of page 1 |
| Rtl2832uProps.SetupShort | lib/rtl2832u.js:136-144 | with fewer than six replies, tuner set-up fails having sent only the shift-word writes |
| Rtl2832uProps.SetupInitFails | lib/rtl2832u.js:144-145 | when the tuner's init fails, set-up fails having sent the shift words, the register bank and the init's own transfers |
| Rtl2832uProps.SetupDone | lib/rtl2832u.js:144-147 | after a successful tuner init, set-up sends the gain writes and switches the repeater off, and succeeds only with a reply for that last switch, leaving the PLL locked |
| Rtl2832uProps.UsbLinesOut | lib/rtl2832u.js:76-80 | the USB bring-up sends its three register writes in order and reads nothing |
| Rtl2832uProps.SysLinesOut | lib/rtl2832u.js:82-83 | the system bring-up sends its two register writes in order and reads nothing |
| Rtl2832uProps.InitBatch | lib/rtl2832u.js:82-124 | with a reply for each demodulator write, the initialisation batch sends the system writes and the demodulator writes and succeeds |
| Rtl2832uProps.InitBatchShort | lib/rtl2832u.js:82-124 | with fewer replies than demodulator writes, the initialisation batch fails |
| Rtl2832uProps.PrepareShort | lib/rtl2832u.js:75-124 | open fails during initialisation without enough replies |
| Rtl2832uProps.PrepareShortOut | lib/rtl2832u.js:75-124 | what a short initialisation sends: the USB writes, the claim and the batch's own transfers |
| Rtl2832uProps.PrepareNoSwitch | lib/rtl2832u.js:75-127 | with replies for the initialisation only, the repeater switch fails and open stops there |
| Rtl2832uProps.PrepareNoProbe | lib/rtl2832u.js:75-128 | with one reply more, the repeater opens but the probe read fails and open stops there |
| Rtl2832uProps.PrepareProbe | lib/rtl2832u.js:75-128 | with replies for every step, the bring-up sends its fixed transfers and reports the probe answer |
| Rtl2832uProps.PrepareNeeds | lib/rtl2832u.js:75-128 | the bring-up succeeds only with at least one reply per demodulator write plus two |
| Rtl2832uProps.SetupLocks | lib/rtl2832u.js:136-147 | a successful set-up leaves the tuner's PLL locked |
| Rtl2832uProps.OpenRejected | lib/rtl2832u.js:127-135 | with no tuner bound and a probe answer other than 0x69, open fails with UnsupportedTuner after the fixed bring-up |
| Rtl2832uProps.OpenFound | lib/rtl2832u.js:127-147 | when the probe answers 0x69, open is the fixed bring-up followed by the set-up of a fresh, unlocked tuner |
| Rtl2832uProps.OpenRebound | lib/rtl2832u.js:129-147 | when a tuner is already bound and the probe does not answer 0x69, open sets the bound tuner up again |
| Rtl2832uProps.OpenLocks | lib/rtl2832u.js:75-147 | a successful open needs the full set of bring-up replies and leaves the tuner's PLL locked |

## Deviations from the source

The model follows the evident intent of the code in three places.

- `lib/rtl2832u.js:128` probes the tuner with `check(com)`. Here `com` is
  not defined in `open`, and the call is not awaited. The model probes over
  the demodulator's own link and waits for the answer.
- `lib/rtl2832u.js:200` uses a bare `IF_FREQ` and does not await
  `setFrequency`. The model tunes `RTL2832U.IF_FREQ` above the request and
  waits for the result.
- `lib/rtlcom.js:243-246` swallows a failed control read and returns
  `undefined`. The model returns `Err(TransportError(value, index))`, and
  every caller propagates it as the awaited exception would.

## Left out

- USB and the host environment: usb.js, web-usb.js and rtlsdr.js are not part of this model. The device is a trace of transfers and a queue of replies.
- Concurrency and promises: every operation runs to completion before the next one starts.
- Logging, transfer dumps and the text of error messages: they have no effect on the device.
- OUT transfers, interface claim and interface release never fail in the model. Only IN transfers can fail, when no reply is queued.
- Floating point: `Math.log` in setPll becomes the integer `FloorLog2`, and the crystal frequency, ratio and offsets use exact integer division. The reported PLL frequency and the gain curve are exact reals, and `Math.round` is floor(x + 0.5). NaN and non-number gains are not modelled.
- R820TTuner.Tuner.SetPll: requires 0 < freq <= 1.77 GHz. The source accepts any number. Above 1.77 GHz the logarithm is negative, so the divider exponent and the shift `1 << (divNum + 1)` go negative. At freq = 0 the logarithm is Infinity and `Math.min` caps the exponent at 6. A negative freq gives NaN. None of these cases is modelled.
- R820TTuner.Tuner.SetFrequency: requires the same range as SetPll, for the same reasons.
- Rtl2832u.Demodulator.SetCenterFrequency: requires that freq + IF_FREQ lies in the same range, for the same reason.
- Rtl2832u.Demodulator.constructor: requires ppm > -1000000. At exactly -1000000 the crystal frequency is 0 and the multiplier is a JavaScript infinity. Below that the crystal frequency is negative and the multiplier a finite positive number, which the source writes as usual and hands to the tuner as its reference. The model keeps the crystal frequency positive.
- Rtl2832u.Demodulator.SetSampleRate: the rate is a `nat`, so fractional and negative rates are not modelled. A rate of 0 is modelled: the ratio becomes 0, because `& 0x0ffffffc` turns Infinity into 0, and the writes and the reset still go out.
- Rtl2832u.RealRate: a ratio of 0 gives no rate, where JavaScript divides by zero and returns Infinity.
- Rtl2832u.Demodulator.SetGain: requires a tuner bound with its register bank, which only a successful open guarantees here. Calls before any open are not modelled: the source throws a TypeError on the missing tuner. Calls after an open that failed during tuner set-up are not modelled either. There the source's tuner is already bound and the call goes to it, or throws when its register bank was never set.
- Rtl2832u.Demodulator.SetCenterFrequency: requires a bound tuner with its bank, as SetGain does. Before any open the source sends the repeater-on write and then throws a TypeError. After an open that failed during set-up it uses the bound tuner. Neither case is modelled.
- Rtl2832u.Demodulator.Close: requires a bound tuner with its bank, as SetGain does. Before any open the source sends the repeater-on write and then throws a TypeError. After an open that failed during set-up it shuts the bound tuner down. Neither case is modelled.
- Rtl2832u.Demodulator.Open: the tuner's bank and flag are stated only when open succeeds. After a failure only the link, the result and whether a tuner was created are stated.
- Rtl2832u.Demodulator.Attach: as for Open, the tuner's state is stated only on success.
- Rtl2832u.Bind: the tuner's state is stated only when the IF shift writes succeeded.
- Register values wider than a byte passed to `Uint8Array` are reduced modulo 256, as the array does. Register numbers are assumed to be in range.
