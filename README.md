# LoRaMAC engine and STM32L1 ADC calibration, in Dafny

This project models two parts of RIOT:

- **The Semtech LoRaMAC engine** (`pkg/semtech-loramac/contrib/semtech_loramac.c`).
  - It sits between an application thread, the external LoRaMAC stack and the SX127x radio.
  - It is modelled as one object, `LoRaMacEngine.Mac`, whose fields mirror `semtech_loramac_t`:
    - `state`, `port`, `cnf`, `trials`, `datarate`, `caller_pid`, `link_chk` and `rx_data` (the payload is a fixed-size `array`);
    - the stack MIB entries the engine reads or writes: the joined flag, DevAddr and session keys;
    - logs of what the engine emits:
      - messages posted to the engine thread (`posted`);
      - messages sent to the application (`outbox`);
      - requests handed to the stack (`submitted`);
      - calls into the radio driver and stack callbacks (`external`).
  - How the methods state the new record:
    - `SubmitUplink`, the command and dispatch methods, `Join` and `Send` change many fields, so each states the whole new record through the ghost snapshot `View()`.
    - The stack callbacks, `OtaaJoin`, `AbpJoin`, `RequestLinkCheck`, `AwaitJoin`, `Recv` and `StackJoinAccepted` change only a few fields. Each names those fields in its frame and states their new values.
  - `JoinOutcomesOk` says that every JOIN message posted and every join outcome forwarded is SUCCEEDED, FAILED or RESTRICTED.
    - The constructor establishes it.
    - The callbacks, the command methods, `Join` and `Send` keep it.
    - `Dispatch` keeps it for a message taken from `posted`.
  - The stack's callbacks become methods that append to `posted`.
  - One turn of the event loop is `Dispatch`. The pure function `DispatchView` specifies it and carries the loop's guarantees:
    - only a command can make the engine BUSY;
    - JOIN, TX_DONE, TX_CNF_FAILED and RX each notify the caller exactly once and return to IDLE;
    - TX_SCHEDULE restores the port;
    - an unknown kind changes nothing.
  - The facade functions `join`, `request_link_check`, `send` and `recv` are methods.
    - `join` is split at its `msg_receive`. `Join` runs the command. For OTAA, `AwaitJoin` then receives what the engine forwarded.
  - `LoRaMacScenarios` plays complete exchanges on a fresh engine, for example:
    - an ABP join followed by an uplink and its confirm;
    - a second send while BUSY;
    - an OTAA join that succeeds, and one refused for the duty cycle;
    - a downlink;
    - a join of unknown type.
- **The STM32L1 ADC driver** (`cpu/stm32l1/periph/adc.c`), module `Stm32l1Adc`:
  - `SetSampleTime` is the loop that builds the SMPR word.
  - `Init` is `adc_init`. It returns the CCR and SMPR values it would write.
  - `Sample` / `SampleChannel` is `adc_sample`'s arithmetic. It includes:
    - the resolution check;
    - scaling readings to 12 bits;
    - VDD from VREFINT;
    - the two-point temperature line.
  - C's truncating `/` is written out as `TDiv`.

How threads are modelled:

- A facade call and an engine message are each one sequential step.
- The blocking rendezvous of a facade with the engine (`msg_send_receive`) is a direct call to `RunCommand`.
- A message a thread waits for in `msg_receive` is a parameter (`next` in `AwaitJoin` and `Recv`). The scenarios pass a message taken from `outbox`.
- What the external stack answers is a `StackReplies` parameter:
  - `LoRaMacQueryTxPossible`;
  - `LoRaMacMcpsRequest`;
  - `LoRaMacMlmeRequest`.

The documented intent of this module is the behaviour its interface is meant to have: its result codes, its error classes and its state rules. Where the code differs from that intent, the model follows the code:

- The intent is that every path returns the engine to IDLE. A join of an unknown type does not:
  - `semtech_loramac_join` answers JOIN_SUCCEEDED;
  - nothing on the join path clears BUSY, so the next join is refused with BUSY (`UnknownJoinTypeLeavesEngineBusy`);
  - BUSY lasts until the stack happens to post a notifying message (TX_DONE, TX_CNF_FAILED, RX or JOIN), whose dispatch returns the engine to IDLE (`UnknownJoinTypeReleasedByNotice`);
  - a send in that window is still answered NOT_JOINED first when the network is not joined, since the joined check comes before the state check;
  - the facade returns JOIN_SUCCEEDED for every type other than OTAA, not only for ABP.
- The intent is that the empty flush frame is signalled distinctly. The code only logs it, so the model shows it only in the request built (`UplinkRequest`).
- The link-check confirm falls through into an empty `default`. This changes nothing: a failed link check posts nothing (`OnMlmeConfirm`).
- The intent is that the schedule-now message does not change the state. In the code, a failed submission of the empty frame sets the engine IDLE (`_semtech_loramac_send` at line 146, called from line 605). `DispatchView` states this for TX_SCHEDULE.
- The intent is that a duty-cycle restriction of a send reaches the application as a distinct outcome. In the code, `semtech_loramac_send` answers TX_SCHEDULED whatever the stack answered (lines 734-736). A refusal (duty cycle, BUSY or any other error) only returns the engine to IDLE (lines 138-146), and no message reaches the application. `RestrictedSendReleasesEngine` shows a refused send answered TX_SCHEDULED.

## Model

| member | source | states |
|---|---|---|
| `LoRaMacTypes.AsInt8` | pkg/semtech-loramac/contrib/semtech_loramac.c:107 | The `(int8_t)` cast of the datarate lies in -128..127, agrees with its input modulo 256 and is the identity below 128 |
| `LoRaMacTypes.UplinkRequest` | pkg/semtech-loramac/contrib/semtech_loramac.c:101-127 | The request is confirmed iff the payload fits and the mode is not UNCNF, otherwise unconfirmed; when the payload does not fit it carries no buffer and size 0; the datarate is the int8 cast of `dr`; the port is set whenever the payload fits; NbTrials is set exactly in the confirmed request and equals `trials` |
| `LoRaMacTypes.EmptyFrameIgnoresSettings` | pkg/semtech-loramac/contrib/semtech_loramac.c:101-108 | The flush frame is the same whatever the TX mode, port, trials and payload |
| `LoRaMacTypes.PackDevAddr` | pkg/semtech-loramac/contrib/semtech_loramac.c:393-397 | Unpacking the 32-bit DevAddr most-significant-byte first gives back `devaddr[0..3]` |
| `LoRaMacTypes.PackUnpack` | pkg/semtech-loramac/contrib/semtech_loramac.c:393-397 | Every 32-bit address is the big-endian packing of its four bytes, so the packing is a bijection |
| `LoRaMacTypes.RecvOutcome` | pkg/semtech-loramac/contrib/semtech_loramac.c:747-757 | DATA_RECEIVED exactly for RX, TX_CNF_FAILED exactly for TX_CNF_FAILED, TX_DONE for every other type |
| `LoRaMacTypes.EventMessage` | pkg/semtech-loramac/contrib/semtech_loramac.c:458-523 | A message is posted exactly for ISR, TX_TIMEOUT and RX_TIMEOUT, with the matching kind |
| `LoRaMacEngine.Mac.constructor` | pkg/semtech-loramac/contrib/semtech_loramac.c:306-332 | Starts IDLE and not joined, with the default datarate, ADR, network type, class, port and TX mode, and with no link-check result |
| `LoRaMacEngine.Mac.SubmitUplink` | pkg/semtech-loramac/contrib/semtech_loramac.c:129-148 | Submits `UplinkRequest` of the current settings; returns false and leaves the state alone iff the stack answers OK; on BUSY, DUTYCYCLE_RESTRICTED or any other error returns true in IDLE; nothing else changes |
| `LoRaMacEngine.Mac.OnMcpsConfirm` | pkg/semtech-loramac/contrib/semtech_loramac.c:152-191 | OK with an unconfirmed request posts TX_DONE, OK with any other request posts nothing, any failure posts TX_CNF_FAILED |
| `LoRaMacEngine.Mac.OnMcpsIndication` | pkg/semtech-loramac/contrib/semtech_loramac.c:194-249 | A failed indication posts nothing; otherwise TX_SCHEDULE first if FramePending, then RX carrying the indication if RxData, else TX_DONE |
| `LoRaMacEngine.Mac.OnMlmeIndication` | pkg/semtech-loramac/contrib/semtech_loramac.c:252-266 | SCHEDULE_UPLINK posts TX_SCHEDULE; any other indication posts nothing |
| `LoRaMacEngine.Mac.OnMlmeConfirm` | pkg/semtech-loramac/contrib/semtech_loramac.c:269-304 | A join confirm posts JOIN with SUCCEEDED or FAILED by its status; a link-check confirm posts LINK_CHECK only when OK; others post nothing |
| `LoRaMacEngine.Mac.OnRadioEvent` | pkg/semtech-loramac/contrib/semtech_loramac.c:450-524 | Posts exactly the message `EventMessage` gives for the radio event, and nothing for the others |
| `LoRaMacEngine.Mac.OtaaJoin` | pkg/semtech-loramac/contrib/semtech_loramac.c:334-379 | Marks the MIB not joined and submits a join request with the credentials and datarate; OK posts nothing, DUTYCYCLE_RESTRICTED posts JOIN(RESTRICTED), any other status posts JOIN(FAILED) |
| `LoRaMacEngine.Mac.AbpJoin` | pkg/semtech-loramac/contrib/semtech_loramac.c:381-415 | Writes the big-endian DevAddr (its bytes are `devaddr[0..3]`) and both session keys, ends joined and IDLE |
| `LoRaMacEngine.Mac.RunJoin` | pkg/semtech-loramac/contrib/semtech_loramac.c:417-430 | OTAA and ABP run their handlers with exactly their effects on the record; any other type changes nothing |
| `LoRaMacEngine.Mac.RunCommand` | pkg/semtech-loramac/contrib/semtech_loramac.c:557-566 | The engine record after a command is `CommandView` of the record before it |
| `LoRaMacEngine.CommandView` | pkg/semtech-loramac/contrib/semtech_loramac.c:557-566 | After a command the engine is IDLE iff it was an ABP join or a refused send; a send and an OTAA join submit exactly one request, ABP and unknown joins none; OTAA ends not joined, ABP joined with the packed DevAddr; no command notifies the caller or touches the port, the caller, the link-check cache or `rx_data` |
| `LoRaMacEngine.Mac.Dispatch` | pkg/semtech-loramac/contrib/semtech_loramac.c:531-652 | The engine record after one message is `DispatchView` of the record before it; after RX the stored payload is the indication's `BufferSize` bytes |
| `LoRaMacEngine.DispatchView` | pkg/semtech-loramac/contrib/semtech_loramac.c:531-652 | Exactly JOIN, TX_DONE, TX_CNF_FAILED and RX send one message to the caller and return to IDLE; only CMD can make the engine BUSY; no other kind changes the port, the joined flag or the caller; after TX_SCHEDULE the state is unchanged if the stack accepted the empty frame and IDLE otherwise; LINK_CHECK alone fills the link-check cache and leaves the state alone; RX alone writes the first `BufferSize` bytes of the payload buffer and nothing after them; an unknown kind changes nothing |
| `LoRaMacEngine.Mac.RecordExternal` | pkg/semtech-loramac/contrib/semtech_loramac.c:534-556 | ISR, RX/TX timeouts and MAC timer messages only call into the radio or the stack |
| `LoRaMacEngine.Mac.Notify` | pkg/semtech-loramac/contrib/semtech_loramac.c:567-616 | JOIN forwards its outcome, TX_DONE and TX_CNF_FAILED their kind, to the caller, then IDLE |
| `LoRaMacEngine.Mac.StoreLinkCheck` | pkg/semtech-loramac/contrib/semtech_loramac.c:577-589 | Stores the margin and gateway count and marks them available |
| `LoRaMacEngine.Mac.ScheduleUplink` | pkg/semtech-loramac/contrib/semtech_loramac.c:600-608 | Submits the empty frame on port 0 and restores the previous port |
| `LoRaMacEngine.Mac.StoreRx` | pkg/semtech-loramac/contrib/semtech_loramac.c:617-646 | Copies `BufferSize` bytes into the payload buffer, stores length, port, ack, multicast, RSSI and datarate, notifies the caller with RX and returns to IDLE |
| `LoRaMacEngine.Mac.Join` | pkg/semtech-loramac/contrib/semtech_loramac.c:675-698 | BUSY with nothing changed unless IDLE; otherwise records the caller and runs the join command; OTAA answers nothing yet and waits; every other type returns JOIN_SUCCEEDED at once; keeps `JoinOutcomesOk` |
| `LoRaMacEngine.Mac.AwaitJoin` | pkg/semtech-loramac/contrib/semtech_loramac.c:688-694 | Sets IDLE and returns the `content.value` of the received message; when that message is a join outcome in `outbox` and `JoinOutcomesOk` holds, the result is JOIN_SUCCEEDED, JOIN_FAILED or RESTRICTED |
| `LoRaMacEngine.CommandKeepsJoinOutcomes` | pkg/semtech-loramac/contrib/semtech_loramac.c:352-378 | A command posts only RESTRICTED or FAILED join messages and sends nothing to the application, so only join results stay posted and forwarded |
| `LoRaMacEngine.DispatchKeepsJoinOutcomes` | pkg/semtech-loramac/contrib/semtech_loramac.c:567-575 | Handling a message taken from `posted` forwards only join results to the application |
| `LoRaMacEngine.Mac.RequestLinkCheck` | pkg/semtech-loramac/contrib/semtech_loramac.c:700-708 | Clears the availability of the cached result and submits a link-check request |
| `LoRaMacEngine.Mac.Send` | pkg/semtech-loramac/contrib/semtech_loramac.c:710-737 | Clears link-check availability on every call; NOT_JOINED before BUSY; otherwise runs the send command and returns TX_SCHEDULED |
| `LoRaMacEngine.Mac.Recv` | pkg/semtech-loramac/contrib/semtech_loramac.c:739-762 | Records the caller and classifies the next message's type with `RecvOutcome` |
| `LoRaMacEngine.OtaaRefusal` | pkg/semtech-loramac/contrib/semtech_loramac.c:352-378 | Nothing is posted iff the join request was accepted; otherwise one JOIN message, RESTRICTED for the duty cycle and FAILED for anything else |
| `LoRaMacScenarios.SendBeforeJoin` | pkg/semtech-loramac/contrib/semtech_loramac.c:710-723 | A send on a fresh engine returns NOT_JOINED and nothing is submitted or posted |
| `LoRaMacScenarios.AbpUnconfirmedUplink` | pkg/semtech-loramac/contrib/semtech_loramac.c:675-737 | ABP join, unconfirmed send, OK confirm and receive yield JOIN_SUCCEEDED, TX_SCHEDULED and TX_DONE, back in IDLE, with the payload sent on the default port |
| `LoRaMacScenarios.SecondSendWhileBusy` | pkg/semtech-loramac/contrib/semtech_loramac.c:725-728 | A second send while the first is in flight returns BUSY and submits nothing |
| `LoRaMacScenarios.RestrictedSendReleasesEngine` | pkg/semtech-loramac/contrib/semtech_loramac.c:138-146 | After a duty-cycle refusal the engine is IDLE and the next send is scheduled |
| `LoRaMacScenarios.LinkCheck` | pkg/semtech-loramac/contrib/semtech_loramac.c:577-589 | The request clears the cache; the answer fills it without notifying the caller, and the engine stays IDLE |
| `LoRaMacScenarios.OtaaJoinRestricted` | pkg/semtech-loramac/contrib/semtech_loramac.c:356-366 | The caller waits; after a duty-cycle refusal the engine forwards JOIN(RESTRICTED), and `join` returns that RESTRICTED, with the engine IDLE and not joined |
| `LoRaMacScenarios.OtaaJoinThenSend` | pkg/semtech-loramac/contrib/semtech_loramac.c:675-698 | The caller waits; after an accepted OTAA join and a successful join confirm, the engine forwards JOIN_SUCCEEDED, `join` returns it, and a send is then scheduled |
| `LoRaMacScenarios.UnknownJoinTypeLeavesEngineBusy` | pkg/semtech-loramac/contrib/semtech_loramac.c:417-430 | A join of unknown type answers JOIN_SUCCEEDED but leaves the engine BUSY, so the next join returns BUSY |
| `LoRaMacScenarios.UnknownJoinTypeReleasedByNotice` | pkg/semtech-loramac/contrib/semtech_loramac.c:590-598 | After a join of unknown type, a TX_DONE posted by the stack and dispatched returns the engine to IDLE, and a following ABP join answers JOIN_SUCCEEDED |
| `LoRaMacScenarios.Downlink` | pkg/semtech-loramac/contrib/semtech_loramac.c:617-646 | A data indication ends with the downlink's bytes in the receive buffer and `recv` returning DATA_RECEIVED |
| `Stm32l1Adc.SetSampleTime` | cpu/stm32l1/periph/adc.c:87-101 | The word has all ten 3-bit fields equal to `time` and bits 30-31 clear |
| `Stm32l1Adc.OrExtendsFields` | cpu/stm32l1/periph/adc.c:92-94 | One loop iteration extends the filled fields by one and sets nothing above them |
| `Stm32l1Adc.ReplicatesExactly` | cpu/stm32l1/periph/adc.c:89-94 | Such a word is unique: it equals `time * 0x09249249` |
| `Stm32l1Adc.ForceMediumPrescaler` | cpu/stm32l1/periph/adc.c:118-119 | ADCPRE becomes MEDIUM and every other CCR bit is kept |
| `Stm32l1Adc.SampleTimeFor` | cpu/stm32l1/periph/adc.c:123-135 | LOW gives 16 cycles, MEDIUM 48, anything else 96, each exactly in its case |
| `Stm32l1Adc.InitAlwaysSelects48Cycles` | cpu/stm32l1/periph/adc.c:118-135 | Since MEDIUM is forced just before the switch, it always selects 48 cycles |
| `Stm32l1Adc.InitCcr` | cpu/stm32l1/periph/adc.c:117-145 | The CCR `adc_init` leaves has ADCPRE at MEDIUM, TSVREFE set for an internal channel and kept otherwise, and every other bit kept |
| `Stm32l1Adc.InitSampleWord` | cpu/stm32l1/periph/adc.c:118-135 | Whatever the old CCR, the SMPR word the switch after the forced MEDIUM prescaler produces has every field at 48 cycles and equals `4 * 0x09249249` |
| `Stm32l1Adc.Init` | cpu/stm32l1/periph/adc.c:103-156 | -1 and no effect iff the line is outside the configuration; otherwise 0, the pin configured, ADCPRE at MEDIUM, TSVREFE set for the temperature and VREF channels and kept otherwise, all other CCR bits kept, every SMPR field at 48 cycles |
| `Stm32l1Adc.Scale` | cpu/stm32l1/periph/adc.c:200-212 | The shift factor times the number of levels of the resolution is 4096 |
| `Stm32l1Adc.Normalize` | cpu/stm32l1/periph/adc.c:200-212 | The shift switch that brings a reading to 12 bits (`<< 6`, `<< 4`, `<< 2` or none, as at lines 244-258 too): shifting back by the factor recovers the reading, and the result is below 4096 exactly when the reading is within its resolution |
| `Stm32l1Adc.NormalizeMonotone` | cpu/stm32l1/periph/adc.c:244-258 | Scaling to 12 bits keeps the order of readings |
| `Stm32l1Adc.TDiv` | cpu/stm32l1/periph/adc.c:265 | C `/`: magnitude is the quotient of magnitudes, sign is the product of the signs, and it agrees with Euclidean division on non-negative operands |
| `Stm32l1Adc.TDivNegate` | cpu/stm32l1/periph/adc.c:265 | Negating the dividend negates the quotient |
| `Stm32l1Adc.TDivIsNotEuclidean` | cpu/stm32l1/periph/adc.c:265 | For -80 / 176, C gives 0 where Euclidean division gives -1 |
| `Stm32l1Adc.TDivMonotone` | cpu/stm32l1/periph/adc.c:265 | Over a positive divisor the quotient keeps the order of dividends |
| `Stm32l1Adc.VrefCal` | cpu/stm32l1/periph/adc.c:193-198 | 1672 below category 3, the factory word otherwise |
| `Stm32l1Adc.TempCal` | cpu/stm32l1/periph/adc.c:232-242 | 1671/680/856 below category 3, the factory words otherwise |
| `Stm32l1Adc.Vdd` | cpu/stm32l1/periph/adc.c:214 | C's `(3000*cal_vref)/sample` with truncating division: on non-negative operands the result in mV is the largest `v` with `v * sample <= 3000 * cal_vref` |
| `Stm32l1Adc.VddAtCalibration` | cpu/stm32l1/periph/adc.c:214 | A 12-bit VREFINT reading equal to the calibration word gives 3000 mV |
| `Stm32l1Adc.VddAntitone` | cpu/stm32l1/periph/adc.c:214 | A higher VREFINT reading never gives a higher VDD |
| `Stm32l1Adc.AdjustToVdd` | cpu/stm32l1/periph/adc.c:262 | C's `(cal_vref*sample)/sample_vref`: on non-negative operands the adjusted reading is the largest `a` with `a * sample_vref <= cal_vref * sample` |
| `Stm32l1Adc.AdjustAtCalibration` | cpu/stm32l1/periph/adc.c:262 | At the calibration supply the VDD adjustment leaves the sample unchanged |
| `Stm32l1Adc.TempFromAdjusted` | cpu/stm32l1/periph/adc.c:265 | C's `30 + (80*(sample - cal_ts1))/(cal_ts2 - cal_ts1)`: with `ts1 < ts2` and a reading at or above `ts1`, `(t - 30) * (ts2 - ts1) <= 80 * (adj - ts1) < (t - 29) * (ts2 - ts1)` |
| `Stm32l1Adc.TemperatureEndpoints` | cpu/stm32l1/periph/adc.c:265 | The adjusted reading `ts1` gives 30 C and `ts2` gives 110 C |
| `Stm32l1Adc.TemperatureMonotone` | cpu/stm32l1/periph/adc.c:265 | With `ts1 < ts2` a higher adjusted reading never gives a lower temperature |
| `Stm32l1Adc.TemperatureTruncatesTowardCalibration` | cpu/stm32l1/periph/adc.c:265 | One count below `ts1` = 680 still reads 30 C, where floor division would give 29 |
| `Stm32l1Adc.SampleChannel` | cpu/stm32l1/periph/adc.c:161-275 | -1 for any resolution other than 6, 8, 10 or 12 bits; the raw reading unscaled on channels other than temperature and VREF |
| `Stm32l1Adc.Sample` | cpu/stm32l1/periph/adc.c:161-275 | -1 for an unsupported resolution on any line, configured or not, since that check comes before the line is read; otherwise `SampleChannel` of the configured line's channel |
| `Stm32l1Adc.SampleVrefAtCalibration` | cpu/stm32l1/periph/adc.c:192-215 | On the VREF channel a reading that scales to the calibration word gives 3000 mV, at every supported resolution |
| `Stm32l1Adc.SampleTemperatureAtCalibration` | cpu/stm32l1/periph/adc.c:218-266 | On the temperature channel at the calibration supply, readings that scale to `ts1` and `ts2` give 30 C and 110 C |
| `Stm32l1Adc.TemperatureCanLookLikeError` | cpu/stm32l1/periph/adc.c:166-274 | A valid temperature reading (611 at 12 bits on a low-end device) returns -1, the same value as the resolution error |
| `Stm32l1Adc.IntermediatesFitInt32` | cpu/stm32l1/periph/adc.c:214-265 | With readings within their resolution and a VREFINT reading of at least 1024, `3000*cal_vref`, `cal_vref*sample` and `80*(adj - cal_ts1)` fit a 32-bit `int` |

## Left out

- Threads, the mutex, `msg_send_receive`, `msg_reply` and blocking `msg_receive` are sequential calls and parameters. Interleavings other than the ones the scenarios play are not modelled.
- The engine's 16-entry message queue and the interrupts it drops when full are not modelled. `posted` is an unbounded log, and `Dispatch` takes the message to handle as a parameter rather than popping it.
- The external LoRaMAC stack is not modelled: `LoRaMacInitialization` and its request functions are left out.
  - The MIB entries the engine reads or writes are fields of `Mac`: the joined flag, the DevAddr and the session keys. The rest of the MIB is left out.
  - Its answers are `StackReplies`.
  - `StackJoinAccepted` stands for the MIB update the stack makes before confirming an OTAA join.
- The SX127x driver is not modelled:
  - `isr`, `sx127x_set_sleep` and the RX_COMPLETE payload fetch are left out;
  - so are the radio callbacks for TX_COMPLETE, CRC errors, FHSS and CAD;
  - MAC timer callbacks are not modelled either. `Dispatch` only records these calls in `external`.
- Thread creation in `semtech_loramac_init` is left out. So are the EU868 channel macros, the NetID written by `_join_abp` and the DEBUG output.
- The getters and setters live in another file, which is not part of this model.
  - `semtech_loramac_get_dr` is read as the `datarate` field. `_semtech_loramac_send` calls that getter (line 99), while `_join_otaa` reads `mac->datarate` directly (line 349). The model assumes both give the same value.
  - The defaults `_init_loramac` applies are a `Defaults` parameter.
- Fields the C code leaves unwritten are not given values:
  - `fPort` of the flush frame is `None`;
  - the `type` of a forwarded JOIN and the `content.value` of other notices are taken as the `unset` parameters of `Recv` and `AwaitJoin`.
- The constructor starts every field the source does not initialise from zero.
- LoRaMacEngine.Mac.OnMcpsIndication, LoRaMacEngine.Mac.OnMlmeConfirm and LoRaMacEngine.Mac.StoreRx: the C posts a pointer to the stack's own indication or confirm (lines 243 and 297) and reads it only when the engine handles the message (lines 579-581 and 621-629). The model copies the indication or confirm into the message when it is posted. If the stack overwrote its struct before the engine handled the message, the C would read the newer contents. The model does not capture this aliasing.
- LoRaMacEngine.Mac.AwaitJoin: the result is a join result only when the received message is a forwarded JOIN outcome. If a TX_DONE, TX_CNF_FAILED or RX notice reached the waiting caller first, the C would return an unwritten `content.value`. The model returns the `unset` parameter in that case.
- LoRaMacEngine.Mac.Dispatch: requires the downlink's `BufferSize` to fit the receive buffer. The source copies without checking.
- LoRaMacEngine.Mac.StoreRx: requires the same bound, for the same reason.
- Register reads and writes, clock and GPIO setup, the busy-wait loops, and the `prep`/`done` mutex of the ADC driver are left out. `Init` returns the CCR and SMPR values instead of writing them.
- CR1 and CR2 are not modelled, and two of their effects change what a reading means:
  - `adc_sample` only ORs the resolution bits into CR1 and never clears them (line 177). After a sample at a coarser resolution, a finer `res` still converts at the coarser one, so the scaling of `Normalize` and `Vdd` would not fit that reading. The model assumes `raw` and `rawVref` are readings taken at `res`.
  - `adc_sample` clears TSVREFE after every sample (line 269). The CCR after a sample is not modelled.
- The calibration words at fixed addresses, the device category and the data-register readings are inputs.
- The register constants come from device headers that are not part of this model:
  - ADCPRE bits 17:16;
  - TSVREFE bit 23;
  - temperature channel 16 and VREF channel 17.
- Stm32l1Adc.SetSampleTime: requires `time <= 7`, the width of the field. Every caller passes an ADC_SAMPLE_TIME_* code.
- Stm32l1Adc.Sample: requires a configured line whenever the resolution is supported, because past the resolution check the source reads `adc_config[line]` unchecked. It also requires nonzero divisors, because the source divides by them unchecked: the scaled VREF reading, the VREFINT reading, and `cal_ts2 - cal_ts1`.
- Stm32l1Adc.SampleChannel: requires the same nonzero divisors.
- C `int` arithmetic is on unbounded integers. 32-bit overflow is excluded only under the bounds of `IntermediatesFitInt32`. A VREFINT reading close to 0 can overflow `80*(adj - cal_ts1)` in the source, and that overflow is not modelled.
