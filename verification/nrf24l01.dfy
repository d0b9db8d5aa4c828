/**
 * Register map, bit mnemonics and command opcodes of the nRF24L01(+) radio,
 * as the driver names them (nRF24L01.hh), with the relations between them
 * that the driver's hard-coded masks and address arithmetic rely on.
 */
module Nrf24L01 {

  // Registers (5-bit addresses)
  const CONFIG: bv8      := 0x00
  const EN_AA: bv8       := 0x01
  const EN_RXADDR: bv8   := 0x02
  const SETUP_AW: bv8    := 0x03
  const SETUP_RETR: bv8  := 0x04
  const RF_CH: bv8       := 0x05
  const RF_SETUP: bv8    := 0x06
  const NRF_STATUS: bv8  := 0x07
  const OBSERVE_TX: bv8  := 0x08
  const CD: bv8          := 0x09
  const RX_ADDR_P0: bv8  := 0x0A
  const RX_ADDR_P1: bv8  := 0x0B
  const RX_ADDR_P2: bv8  := 0x0C
  const RX_ADDR_P3: bv8  := 0x0D
  const RX_ADDR_P4: bv8  := 0x0E
  const RX_ADDR_P5: bv8  := 0x0F
  const TX_ADDR: bv8     := 0x10
  const RX_PW_P0: bv8    := 0x11
  const RX_PW_P1: bv8    := 0x12
  const RX_PW_P2: bv8    := 0x13
  const RX_PW_P3: bv8    := 0x14
  const RX_PW_P4: bv8    := 0x15
  const RX_PW_P5: bv8    := 0x16
  const FIFO_STATUS: bv8 := 0x17
  const DYNPD: bv8       := 0x1C
  const FEATURE: bv8     := 0x1D

  // Bit positions
  const MASK_RX_DR: bv8  := 6
  const MASK_TX_DS: bv8  := 5
  const MASK_MAX_RT: bv8 := 4
  const EN_CRC: bv8      := 3
  const CRCO: bv8        := 2
  const PWR_UP: bv8      := 1
  const PRIM_RX: bv8     := 0
  const ENAA_P5: bv8     := 5
  const ENAA_P4: bv8     := 4
  const ENAA_P3: bv8     := 3
  const ENAA_P2: bv8     := 2
  const ENAA_P1: bv8     := 1
  const ENAA_P0: bv8     := 0
  const ERX_P5: bv8      := 5
  const ERX_P4: bv8      := 4
  const ERX_P3: bv8      := 3
  const ERX_P2: bv8      := 2
  const ERX_P1: bv8      := 1
  const ERX_P0: bv8      := 0
  const AW: bv8          := 0
  const ARD: bv8         := 4
  const ARC: bv8         := 0
  const PLL_LOCK: bv8    := 4
  const RF_DR: bv8       := 3
  const RF_PWR: bv8      := 6
  const RX_DR: bv8       := 6
  const TX_DS: bv8       := 5
  const MAX_RT: bv8      := 4
  const RX_P_NO: bv8     := 1
  const TX_FULL: bv8     := 0
  const PLOS_CNT: bv8    := 4
  const ARC_CNT: bv8     := 0
  const TX_REUSE: bv8    := 6
  const FIFO_FULL: bv8   := 5
  const TX_EMPTY: bv8    := 4
  const RX_FULL: bv8     := 1
  const RX_EMPTY: bv8    := 0
  const DPL_P5: bv8      := 5
  const DPL_P4: bv8      := 4
  const DPL_P3: bv8      := 3
  const DPL_P2: bv8      := 2
  const DPL_P1: bv8      := 1
  const DPL_P0: bv8      := 0
  const EN_DPL: bv8      := 2
  const EN_ACK_PAY: bv8  := 1
  const EN_DYN_ACK: bv8  := 0

  // Command opcodes
  const R_REGISTER: bv8    := 0x00
  const W_REGISTER: bv8    := 0x20
  const REGISTER_MASK: bv8 := 0x1F
  const ACTIVATE: bv8      := 0x50
  const R_RX_PL_WID: bv8   := 0x60
  const R_RX_PAYLOAD: bv8  := 0x61
  const W_TX_PAYLOAD: bv8  := 0xA0
  const W_ACK_PAYLOAD: bv8 := 0xA8
  const FLUSH_TX: bv8      := 0xE1
  const FLUSH_RX: bv8      := 0xE2
  const REUSE_TX_PL: bv8   := 0xE3
  const NOP: bv8           := 0xFF

  // Extra mnemonics of the nRF24L01+
  const LNA_HCURR: bv8           := 0
  const RPD: bv8                 := 0x09
  const W_TX_PAYLOAD_NO_ACK: bv8 := 0xB0
  const RF_DR_LOW: bv8           := 5
  const RF_DR_HIGH: bv8          := 3
  const RF_PWR_LOW: bv8          := 1
  const RF_PWR_HIGH: bv8         := 2

  const MASK_RF_DR: bv8  := Bit(RF_DR_HIGH) | Bit(RF_DR_LOW)
  const MASK_RF_PWR: bv8 := Bit(RF_PWR_LOW) | Bit(RF_PWR_HIGH)

  /** Every register address the header defines, in address order. */
  const Registers: seq<bv8> :=
    [CONFIG, EN_AA, EN_RXADDR, SETUP_AW, SETUP_RETR, RF_CH, RF_SETUP, NRF_STATUS,
     OBSERVE_TX, CD, RX_ADDR_P0, RX_ADDR_P1, RX_ADDR_P2, RX_ADDR_P3, RX_ADDR_P4,
     RX_ADDR_P5, TX_ADDR, RX_PW_P0, RX_PW_P1, RX_PW_P2, RX_PW_P3, RX_PW_P4, RX_PW_P5,
     FIFO_STATUS, DYNPD, FEATURE]

  /** The per-pipe address registers, pipe 0 to pipe 5. */
  const RxAddrRegisters: seq<bv8> :=
    [RX_ADDR_P0, RX_ADDR_P1, RX_ADDR_P2, RX_ADDR_P3, RX_ADDR_P4, RX_ADDR_P5]

  /** The per-pipe payload width registers, pipe 0 to pipe 5. */
  const RxPwRegisters: seq<bv8> :=
    [RX_PW_P0, RX_PW_P1, RX_PW_P2, RX_PW_P3, RX_PW_P4, RX_PW_P5]

  /**
   * Low byte of the Arduino macro `bit(n)`, that is of `1UL << n`: the driver
   * only ever combines it with a byte. Positions 8 and above leave the low
   * byte empty.
   */
  function Bit(n: bv8): bv8 {
    if n < 8 then 1 << n else 0
  }

  /** Command byte that writes register `a`: `W_REGISTER | a`, with no masking. */
  function WriteCommand(a: bv8): (cmd: bv8)
    ensures a <= REGISTER_MASK ==> cmd & !REGISTER_MASK == W_REGISTER && cmd & REGISTER_MASK == a
    ensures a > REGISTER_MASK ==> cmd & REGISTER_MASK == a & REGISTER_MASK
  {
    W_REGISTER | a
  }

  /** Command byte that reads register `a`: `R_REGISTER | a`, with no masking. */
  function ReadCommand(a: bv8): (cmd: bv8)
    ensures a <= REGISTER_MASK ==> cmd & !REGISTER_MASK == R_REGISTER && cmd & REGISTER_MASK == a
  {
    R_REGISTER | a
  }

  /** Every register address fits under REGISTER_MASK. */
  lemma RegistersFitMask()
    ensures forall a :: a in Registers ==> a <= REGISTER_MASK
  {
  }

  /** For a register address, read and write commands differ and both decode back to it. */
  lemma CommandsDecode(a: bv8)
    requires a <= REGISTER_MASK
    ensures ReadCommand(a) != WriteCommand(a)
    ensures ReadCommand(a) & REGISTER_MASK == a && WriteCommand(a) & REGISTER_MASK == a
  {
  }

  /** The per-pipe registers are contiguous, so pipe `n`'s register is the pipe-0 register plus `n`. */
  lemma PipeRegistersContiguous()
    ensures forall n :: 0 <= n < 6 ==> RX_ADDR_P0 + n as bv8 == RxAddrRegisters[n]
    ensures forall n :: 0 <= n < 6 ==> RX_PW_P0 + n as bv8 == RxPwRegisters[n]
  {
  }

  /** The named RF_SETUP field masks and the complements written as literals in the driver. */
  lemma RfSetupMasks()
    ensures MASK_RF_PWR == 0x06 && !MASK_RF_PWR == 0xF9
    ensures MASK_RF_DR == 0x28 && !MASK_RF_DR == 0xD7
  {
  }

  /** The CRC field of CONFIG, its complement, and the CONFIG value written at start-up. */
  lemma ConfigMasks()
    ensures Bit(EN_CRC) | Bit(CRCO) == 0x0C && !(Bit(EN_CRC) | Bit(CRCO)) == 0xF3
    ensures Bit(EN_CRC) | Bit(PWR_UP) == 0x0A
  {
  }

  /** The STATUS values written to clear interrupt flags. */
  lemma StatusClearValues()
    ensures Bit(RX_DR) | Bit(TX_DS) | Bit(MAX_RT) == 0x70
    ensures Bit(TX_DS) | Bit(MAX_RT) == 0x30
  {
  }

  /**
   * The 3-bit pipe field `(s >> RX_P_NO) & 7` occupies STATUS bits 1 to 3
   * and overlaps neither TX_FULL nor the three interrupt flags.
   */
  lemma PipeFieldLayout(s: bv8)
    ensures (s >> RX_P_NO) & 7 <= 7
    ensures ((s >> RX_P_NO) & 7) << RX_P_NO == s & 0x0E
    ensures 0x0E & (Bit(TX_FULL) | Bit(RX_DR) | Bit(TX_DS) | Bit(MAX_RT)) == 0
  {
  }
}
