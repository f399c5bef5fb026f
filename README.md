# TinyHawkFlyskyRx UART transmit driver in Dafny

This project models `uart.c` of TinyHawkFlyskyRx, the serial output driver of a
CC2510-based FlySky receiver. The driver does three things:

- `uart_init` sets up the selected USART (`TX_UART`). It configures the pins,
  the 115200 baud rate and the frame format. It then programs DMA descriptor 3
  to feed the USART's data register, points the DMA controller at the
  descriptor table, arms the channel and, with `HUB_TELEMETRY_ON_TX_UART`,
  enables reception.
- `uart_set_mode` writes a frame format into the USART registers.
- `uart_start_transmission` sends a frame. It points descriptor 3 at `data[1]`
  for `len` bytes, re-arms the channel and writes `data[0]` into the data
  register by hand. The USART's TX-complete trigger then makes the DMA feed
  the remaining bytes.

The model has two layers:

- **Value layer.** `Registers.HwState` holds the registers of the selected
  USART instance and of the pins, the three interrupt flags, the descriptor
  table `dma_config[]` and the ordered trace of every write. Each step of
  `uart.c` is a function on this value:
  - `UartPins.PinMux` and `UartPins.Baud`;
  - `UartMode.SetMode`;
  - `UartDma.SetupTxDescriptor`, `UartDma.PointChannels`, `UartDma.Arm` and
    `UartDma.Telemetry`;
  - `UartInit.Init`;
  - `UartStart.StartTransmission`.

  Lemmas about these functions state which bits each step sets or clears,
  what it leaves alone, and in which order it writes. They also prove the two
  end-to-end facts:
  - after `uart_init` every piece of the configuration is in place;
  - a started transmission puts exactly `data[0..len]` on the wire.
- **Imperative layer.** Class `Uart.Hw` holds the same state in fields, with
  the descriptor table as an array. Its methods perform the statements of
  `uart.c` one by one. Each method ensures that the new state is what the
  value-layer function computes from the old state, so the lemmas carry over.

Inputs from elsewhere are parameters:

- The constants from `cc2510fx.h`, `dma.h` and `uart.h` are fields of the
  `Config.Header` record, for example `PERCFG_U0CFG`, `CC2510_BAUD_M_115200`,
  `DMA_TRIG_UTX1` and `&X_U1DBUF`. Those headers are not part of this model.
- The bit layout of `union uart_config_t` is the `FrameFormat.Layout` record.
- The build selections from `config.h` are the `Config.Build` record.

**Code versus comment.** The comment at `uart.c:83` says the USART is set up
for "8E2", meaning even parity and two stop bits. The code sets `SPB = 0` and
`PARITY = 0` (`uart.c:102-103`), which is one stop bit and no parity. The
model follows the code: `FrameFormat.Preset` gives 8N1 in both builds.

## Model

| member | source | states |
|---|---|---|
| FrameFormat.Pack | uart.c:84-106 | once every field of `uart_config.bit` is assigned, each field's value stands at that field's bit of `uart_config.byte` |
| FrameFormat.PackFieldsBit | uart.c:84-106 | a bit of the packed byte at field `f`'s position is set iff `f` is among the assigned fields and is 1 |
| FrameFormat.PackAllFields | uart.c:84-106 | with all eight fields assigned, each field is read back at its own bit |
| FrameFormat.Unpack | uart.c:84-106 | when every field has a bit of its own, packing the fields read out of a byte gives that byte back, so the union's byte and its eight fields determine each other |
| FrameFormat.PackOfBits | uart.c:84-106 | a frame format holding each bit of `b` at its field's position packs to exactly `b`; no bit of the union's byte is left unassigned |
| FrameFormat.LayoutCovers | uart.c:28 | in a union whose eight one-bit fields sit on different bits, every bit of the byte belongs to some field |
| FrameFormat.UnpackPack | uart.c:84-106 | unpacking the packed byte gives back the same frame format |
| FrameFormat.Preset | uart.c:84-106 | both presets have SPB, PARITY, BIT9, FLOW and ORDER 0: one stop bit, no parity, 8 data bits, no flow control, LSB first |
| FrameFormat.PresetsDiffer | uart.c:84-100 | the inverted and standard presets differ in exactly START, STOP and D9, with START=1, STOP=0, D9=1 when inverted and the opposite otherwise |
| FrameFormat.PresetsDifferPacked | uart.c:84-106 | the two presets' bytes XOR to exactly the START, STOP and D9 bits |
| FrameFormat.PresetBitsDiffer | uart.c:84-106 | bit `p` of the two preset bytes differs iff `p` is the START, STOP or D9 position |
| UartPins.PinMuxFrame | uart.c:30-72 | whatever TX_UART selects, only PERCFG, P0SEL, P1SEL, P0DIR, P1DIR and P2DIR may change; no flag or descriptor changes |
| UartPins.PinMuxKeeps | uart.c:30-72 | the pin setup leaves UxCSR, DMAARM, the flags and the descriptors alone |
| UartPins.PinMuxUsart0P1Bits | uart.c:30-42 | PERCFG gains U0CFG, P1SEL gains bits 5 and 4, P0SEL loses bits 5..2, P1DIR gains bit 5; every other bit is kept |
| UartPins.PinMuxUsart0P1Values | uart.c:30-42 | each of the four registers is written once, from its own old value |
| UartPins.PinMuxUsart0P1Frame | uart.c:30-42 | no register other than those four changes, nor any flag or descriptor |
| UartPins.PinMuxUsart0P1Trace | uart.c:30-42 | the writes happen in the order PERCFG, P1SEL, P0SEL, P1DIR |
| UartPins.MergeUsart1First | uart.c:48 | `(P2DIR & 0x3F) \| 0b01000000` makes bits 7:6 equal 01 and keeps bits 5:0 |
| UartPins.PinMuxUsart1P0Bits | uart.c:43-57 | PERCFG loses U1CFG, P2DIR bits 7:6 become 01, P0SEL gains bits 4 and 5, P0DIR gains bit 4; every other bit is kept |
| UartPins.PinMuxUsart1P0Values | uart.c:43-57 | each of the four registers is written once, from its own old value |
| UartPins.PinMuxUsart1P0Frame | uart.c:43-57 | no register other than those four changes, nor any flag or descriptor |
| UartPins.PinMuxUsart1P0Trace | uart.c:43-57 | the writes happen in the order PERCFG, P2DIR, P0SEL, P0DIR |
| UartPins.PinMuxUsart1P1Bits | uart.c:58-69 | PERCFG gains U1CFG, P2DIR bits 7:6 become 01, P1SEL gains bits 6 and 7, P1DIR gains bit 6; every other bit is kept |
| UartPins.PinMuxUsart1P1Values | uart.c:58-69 | each of the four registers is written once, from its own old value |
| UartPins.PinMuxUsart1P1Frame | uart.c:58-69 | no register other than those four changes, nor any flag or descriptor |
| UartPins.PinMuxUsart1P1Trace | uart.c:58-69 | the writes happen in the order PERCFG, P2DIR, P1SEL, P1DIR |
| UartPins.BaudBits | uart.c:75-81 | UxBAUD holds M and the low five bits of UxGCR hold E's; bits 7:5 of UxGCR are the old bits plus E's, so they are unchanged when E fits five bits |
| UartPins.BaudFrame | uart.c:75-81 | only UxBAUD and UxGCR change |
| UartPins.BaudKeeps | uart.c:75-81 | the pin registers, UxCSR, DMAARM, the flags and the descriptors are left alone |
| UartPins.BaudTrace | uart.c:75-81 | UxBAUD is written before UxGCR |
| UartMode.ModeWritesValues | uart.c:175-211 | each of the five registers is written once, from its own old value |
| UartMode.ModeWritesBits | uart.c:175-211 | UxCSR gains 0x80, UxUCR takes the given byte, the ORDER mask is set or cleared, the priority bit is set in IP0 and cleared in IP1 |
| UartMode.ModeWritesFrame | uart.c:175-211 | no other register, flag or descriptor changes |
| UartMode.ModeWritesTrace | uart.c:175-211 | the writes happen in the order UxCSR, UxUCR, UxGCR, IP0, IP1 |
| UartMode.ModeWritesAgain | uart.c:175-211 | replaying the writes on their own result writes each register the value it already holds |
| UartMode.SetModeBits | uart.c:175-211 | UART mode is enabled, UxUCR is `cfg & 0x7F`, the ORDER bit of UxGCR follows `cfg.bit.ORDER`, and the instance's priority bit (2 for USART0, 3 for USART1) is set in IP0 and cleared in IP1, all other bits kept |
| UartMode.SetModeFields | uart.c:181-198 | for either instance (USART0 at line 181, USART1 at 198), every frame-format field below bit 7 reaches UxUCR with its value; bit 7 never does |
| UartMode.SetModeFrame | uart.c:175-211 | only UxCSR, UxUCR, UxGCR, IP0 and IP1 change |
| UartMode.SetModeKeeps | uart.c:175-211 | the pin registers, UxBAUD, DMAARM, the flags and the descriptors are left alone |
| UartMode.SetModeUcr | uart.c:181-198 | for either instance (lines 181 and 198), UxUCR is `cfg & 0x7F` |
| UartMode.SetModeCsr | uart.c:178-195 | for either instance (lines 178 and 195), UxCSR gains bit 7 and keeps every other bit |
| UartMode.SetModeLowGcr | uart.c:184-205 | for either instance (lines 184-188 and 201-205), an ORDER mask outside bits 4..0 leaves the baud exponent in UxGCR alone |
| UartMode.SetModeOrderPriority | uart.c:184-209 | for either instance (lines 184-192 and 201-209), with ORDER clear the ORDER bit of UxGCR ends clear; the priority bit is set in IP0 and clear in IP1 |
| UartMode.SetModeTrace | uart.c:175-211 | the five writes happen in program order |
| UartMode.UcrFields | uart.c:181-198 | `b & 0x7F` has bit 7 clear and every field below bit 7 as in `b` |
| UartMode.SetModeIdempotent | uart.c:175-211 | applying the same format twice leaves the registers as applying it once, and the second call repeats the same five writes |
| UartDma.SetupTxDescriptorBits | uart.c:111-138 | descriptor 3 gets priority low, 7-bit M8, no IRQ, UTX trigger of the instance, single mode, byte size, destination UxDBUF, length from LEN, source increment 1, destination increment 0, and source and length 0; no other descriptor changes |
| UartDma.SetupTxDescriptorFrame | uart.c:111-138 | no register and no flag changes |
| UartDma.SetupTxDescriptorTrace | uart.c:111-138 | the twelve field writes happen in program order |
| UartDma.PointChannelsBits | uart.c:142 | DMA1CFGH:DMA1CFGL holds the address of `dma_config[1]` |
| UartDma.PointChannelsFrame | uart.c:142 | nothing else changes, and the pair is written by one SET_WORD |
| UartDma.ArmBits | uart.c:147 | channel 3's arm bit is set and no other bit of DMAARM changes |
| UartDma.ArmFrame | uart.c:147-148 | only DMAARM changes, and the write is followed by the delay |
| UartDma.TelemetryBits | uart.c:150-172 | with telemetry on, the RX flag is cleared, reception enabled in UxCSR (no other bit changes), the RX interrupt and global interrupts enabled; with it off nothing happens |
| UartDma.TelemetryFrame | uart.c:150-172 | of the registers only UxCSR may change, and no descriptor changes |
| UartDma.TelemetryTrace | uart.c:150-172 | the flag is cleared before reception is enabled, and the RX interrupt is enabled before EA |
| UartStart.StartDescriptor | uart.c:213-218 | only SRCADDR and LEN of descriptor 3 change: the source is `&data[1]` and the length `len`, whose high byte is 0 |
| UartStart.StartArms | uart.c:222 | channel 3's arm bit is set and no other DMAARM bit changes |
| UartStart.StartWritesDbuf | uart.c:227-232 | UxDBUF receives `data[0]` |
| UartStart.StartFrame | uart.c:213-233 | no register other than DMAARM and UxDBUF changes, and no flag changes |
| UartStart.StartTrace | uart.c:213-233 | SRCADDR, then LEN, then DMAARM, then the delay, and last the write of `data[0]` to UxDBUF |
| UartStart.StartKeepsSetup | uart.c:213-218 | the fixed setup of descriptor 3 survives a start, and the channel points at the `len` bytes after `data[0]` |
| UartStart.StartTriggers | uart.c:222-232 | after a start the channel is armed, and the writes end with the arm, the delay, and `data[0]` into UxDBUF |
| UartStart.StartSendsFrame | uart.c:213-233 | on a channel set up as uart_init leaves it, with DMA1CFG pointing at `dma_config[1]`, a start puts exactly `data[0], ..., data[len]` on the wire, each byte once, in order |
| UartStart.StartOrderMatters | uart.c:214-225 | the frame guarantee depends on this order: if the arm comes before the descriptor writes, or `data[0]` is written without the delay after arming, the model guarantees no bytes (`WireBytes` is None), though `data[0]` still reaches UxDBUF |
| UartStart.StartNeedsTable | uart.c:142 | the frame guarantee depends on the channel-table pointer: without it the model guarantees no bytes after a start (`WireBytes` is None) |
| UartStart.FrameSlice | uart.c:214-231 | `data[0]` followed by the `len` bytes read from `&data[1]` is the buffer's first `len + 1` bytes |
| UartStart.SendsExampleFrame | uart.c:213-233 | the frame `0xAA, 1, 2, 3` at 0x100, started with `len = 3`, goes out as exactly those four bytes |
| Dma.SingleTransfersAreSlice | uart.c:120-137 | a single-mode channel with source increment 1, triggered `n` times, reads `mem[src..src+n]` in order |
| UartInit.HeadKeeps | uart.c:30-109 | the pin, baud and frame-format steps leave the descriptors, the flags and DMAARM alone |
| UartInit.TailFrame | uart.c:111-172 | the rest of uart_init writes only DMA1CFG, DMAARM and UxCSR, and changes flags only with telemetry on |
| UartInit.TailKeeps | uart.c:111-172 | the rest of uart_init leaves the pin, baud and frame-format registers alone |
| UartInit.TailDescriptor | uart.c:111-172 | descriptor 3 ends ready and no other descriptor changes |
| UartInit.TailPointer | uart.c:142-172 | DMA1CFGH:DMA1CFGL ends pointing at `dma_config[1]` |
| UartInit.TailArm | uart.c:147-172 | only channel 3's arm bit is added to DMAARM |
| UartInit.TailReceive | uart.c:150-172 | telemetry sets the receive-enable bits of UxCSR, clears URXxIF and sets URXxIE and EA; without it UxCSR and the flags stay as they are |
| UartInit.InitKeepsMode | uart.c:27-173 | the pin registers, UxBAUD, UxGCR, UxUCR, IP0 and IP1 keep the values the pin, baud and uart_set_mode steps gave them to the end of uart_init (UxCSR is left out: telemetry changes it later) |
| UartInit.InitPinMux | uart.c:27-173 | the pin registers end as the pin setup for TX_UART left them |
| UartInit.ModeKeepsPins | uart.c:75-109 | neither the baud setup nor uart_set_mode writes a pin register |
| UartInit.InitBaud | uart.c:75-81 | after uart_init UxBAUD holds the 115200 mantissa and the low five bits of UxGCR the exponent |
| UartInit.ModeBaud | uart.c:75-109 | the same holds just after uart_set_mode |
| UartInit.InitFrameFormat | uart.c:83-109 | UxUCR holds the preset's byte without bit 7, so every field below bit 7 reads as the preset sets it |
| UartInit.InitFormatFields | uart.c:83-109 | the preset's fields below bit 7 are those bits of `uart_config.byte & 0x7F` |
| UartInit.InitOrderAndPriority | uart.c:104-109 | ORDER is clear in UxGCR (LSB first), and the priority bit is set in IP0 and clear in IP1 |
| UartInit.InitFormatOrder | uart.c:106 | the preset's byte has the ORDER bit clear |
| UartInit.InitTxDescriptor | uart.c:111-148 | descriptor 3 is ready and no other descriptor changes, DMA1CFG points at `dma_config[1]`, and only channel 3's arm bit is added |
| UartInit.InitTelemetry | uart.c:150-172 | with telemetry the RX flag ends clear, RX and global interrupts are on, and UxCSR gains UART mode and receive enable; without it no flag changes and UxCSR gains only UART mode |
| UartInit.InitThenStart | uart.c:27-233 | a transmission started right after uart_init puts `data[0..len]` on the wire, `len + 1` bytes in order |
| Uart.Hw.Init | uart.c:27-173 | the statements of uart_init leave the object in the state `UartInit.Init` computes |
| Uart.Hw.PinMux | uart.c:30-72 | the TX_UART branch leaves the state `UartPins.PinMux` computes |
| Uart.Hw.PinMuxUsart0P1 | uart.c:30-42 | the four writes give `UartPins.PinMuxUsart0P1` |
| Uart.Hw.PinMuxUsart1P0 | uart.c:43-57 | the four writes give `UartPins.PinMuxUsart1P0` |
| Uart.Hw.PinMuxUsart1P1 | uart.c:58-69 | the four writes give `UartPins.PinMuxUsart1P1` |
| Uart.Hw.Baud | uart.c:75-81 | the two writes give `UartPins.Baud` |
| Uart.Hw.SetupTxDescriptor | uart.c:111-138 | the twelve descriptor writes, done in place on the `dma_config` array, give `UartDma.SetupTxDescriptor` |
| Uart.Hw.Arm | uart.c:147-148 | the arm write and the delay give `UartDma.Arm` |
| Uart.Hw.SetMode | uart.c:175-211 | the five writes give `UartMode.SetMode` |
| Uart.Hw.StartTransmission | uart.c:213-233 | the four statements give `UartStart.StartTransmission` |

## Left out

- `delay_45nop()` appears only as an event in the trace. Its timing, which lets the DMA controller load the descriptor, is not modelled.
- The constants of `cc2510fx.h`, `dma.h` and `uart.h` are not part of this model. They are fields of `Config.Header`, so the properties hold for all their values that fit the `dma.h` bit-fields they are stored in, except where a lemma names a condition on them. Those conditions are listed below: `DMA_ARM_CH3` is nonzero, the ORDER mask lies outside the baud exponent, and the union's fields sit on distinct bits. The model does not truncate descriptor fields to their widths: a constant too wide for its field (for example the 5-bit TRIG) would be cut short by the C compiler, but is kept whole here.
- The bit layout of `union uart_config_t` is a parameter for the same reason. Lemmas about fields assume only that each field has its own bit (`Layout.Distinct`).
- `SET_WORD` is recorded as one event holding the whole 16-bit value. The macro is not part of this model, so the order of its two byte writes is not captured.
- `TX_UART == USART0_P0` compiles to `#error "UNSUPPORTED UART"` in uart_init (uart.c:70-71). It is excluded by `Config.Supported` wherever uart_init is involved.
- `URX0IF`/`URX1IF` and `URX0IE`/`URX1IE` are modelled as one flag each (`URXxIF`, `URXxIE`), because only the instance the build selects is ever written. Likewise `Ux…` stands for the U0 or U1 registers of that instance.
- The DMA controller and the USART shift register are modelled only by `Dma.SingleTransfers` and `UartStart.WireBytes`. These give the bytes an armed single-mode channel moves, one per TX-complete trigger. `WireBytes` takes the channel's descriptor to be the one loaded at the last arm. It therefore requires the writes to end with the arm, the delay and the first byte, channel 3 to be armed, and DMA1CFG to point at `dma_config[1]`. Whether 45 NOPs are long enough for the load is not modelled. Bus timing, the USART's electrical output, inversion on the wire, and DMA faults are not modelled.
- UartStart.StartSendsFrame: requires the buffer `data[0..len]` to lie inside the 16-bit address space (`data + len < 0x10000`). The driver takes this for granted of its caller.
- `UartStart.NextAddress` wraps `&data[1]` at 16 bits, as SET_WORD would store it. No lemma says what is sent when the buffer itself wraps.
- UartStart.StartTriggers, UartStart.StartSendsFrame, UartStart.SendsExampleFrame and UartInit.InitThenStart: require `DMA_ARM_CH3` to be nonzero. The constant is in a header that is not part of this model. With a zero mask, `DMAARM |= DMA_ARM_CH3` would arm nothing, and the model makes no frame prediction.
- `UartStart.WireBytes` reads the whole frame from one fixed memory `mem`. The driver leaves it to its caller not to change the buffer, and not to call `uart_start_transmission` again, before the DMA has sent the last byte. A caller that breaks this rule is not modelled.
- UartInit.InitBaud: requires the instance's ORDER mask to lie outside bits 4..0 of UxGCR. The `UxGCR_ORDER` constants are in a header that is not part of this model. Without this requirement, uart_set_mode could overwrite the baud exponent.
- UartInit.ModeBaud: has the same requirement on the ORDER mask as UartInit.InitBaud.
- The receive interrupt handler, `volatile` access semantics, interrupt priorities beyond the IP0/IP1 bits written here, and the callers of these routines (the telemetry encoders) are not part of this model.
- The trace holds values written, not values read. Read-modify-write statements are recorded by the value they store.
