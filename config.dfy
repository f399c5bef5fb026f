/** The build-time selections of config.h and the constants of the headers
    cc2510fx.h, dma.h and uart.h, none of which is part of this model: they
    are parameters of everything that uses them. */
module Config {
  import opened Bits
  import FrameFormat
  import opened Dma

  /** `TX_UART`: a USART instance and its pin mapping. */
  datatype TxUart = USART0_P0 | USART0_P1 | USART1_P0 | USART1_P1

  datatype Usart = USART0 | USART1

  /** The instance the `#if (TX_UART == USART0_P1) || (TX_UART == USART0_P0)`
      tests select. */
  function Instance(t: TxUart): (u: Usart) {
    if t == USART0_P0 || t == USART0_P1 then USART0 else USART1
  }

  /** The selections uart_init has a pin-mux branch for; any other falls into
      the `#error "UNSUPPORTED UART"`. */
  predicate Supported(t: TxUart) {
    t == USART0_P1 || t == USART1_P0 || t == USART1_P1
  }

  /** The build: `TX_UART`, `UART_INVERTED` and `HUB_TELEMETRY_ON_TX_UART`. */
  datatype Build = Build(txUart: TxUart, uartInverted: bool, hubTelemetryOnTxUart: bool)
  {
    function Usart(): (u: Usart) { Instance(txUart) }
  }

  /** Header constants. */
  datatype Header = Header(
    percfgU0Cfg: bv8,        // PERCFG_U0CFG
    percfgU1Cfg: bv8,        // PERCFG_U1CFG
    u0GcrOrder: bv8,         // U0GCR_ORDER
    u1GcrOrder: bv8,         // U1GCR_ORDER
    csrRxEnable: bv8,        // UxCSR_RX_ENABLE
    baudM: bv8,              // CC2510_BAUD_M_115200
    baudE: bv8,              // CC2510_BAUD_E_115200
    dmaArmCh3: bv8,          // DMA_ARM_CH3
    dmaPriLow: nat,          // DMA_PRI_LOW
    dmaM8Use7Bits: nat,      // DMA_M8_USE_7_BITS
    dmaIrqMaskDisable: nat,  // DMA_IRQMASK_DISABLE
    dmaTrigUtx0: nat,        // DMA_TRIG_UTX0
    dmaTrigUtx1: nat,        // DMA_TRIG_UTX1
    dmaTModeSingle: nat,     // DMA_TMODE_SINGLE
    dmaWordSizeByte: nat,    // DMA_WORDSIZE_BYTE
    dmaVLenUseLen: nat,      // DMA_VLEN_USE_LEN
    dmaSrcInc1: nat,         // DMA_SRCINC_1
    dmaDestInc0: nat,        // DMA_DESTINC_0
    u0DbufAddr: Word16,      // &X_U0DBUF
    u1DbufAddr: Word16,      // &X_U1DBUF
    dmaConfig1Addr: bv16,    // &dma_config[1]
    layout: FrameFormat.Layout)  // bit layout of union uart_config_t
  {
    function GcrOrder(u: Usart): (m: bv8) {
      if u == USART0 then u0GcrOrder else u1GcrOrder
    }

    function TrigUtx(u: Usart): (trig: nat) {
      if u == USART0 then dmaTrigUtx0 else dmaTrigUtx1
    }

    function DbufAddr(u: Usart): (a: Word16) {
      if u == USART0 then u0DbufAddr else u1DbufAddr
    }
  }

  /** The interrupt-priority bit of the instance in IP0 and IP1: bit 2 for
      USART0, bit 3 for USART1. */
  function IpBit(u: Usart): (m: bv8) {
    if u == USART0 then OneHot(2) else OneHot(3)
  }
}
