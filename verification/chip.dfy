/**
 * A simulated nRF24L01 on the other end of the driver's bus: its register
 * file, the three multi-byte address registers, the receive FIFO and the CE
 * line, and the log of everything the driver does on the lines. The chip
 * decodes the commands the driver sends: register reads and writes by their
 * opcode and 5-bit address field, so a command the driver builds from an
 * unexpected address lands on the register the hardware would pick, FLUSH_RX
 * and R_RX_PAYLOAD on the receive FIFO. Every other command leaves the state
 * as it is, and register writes take effect whatever the CE level.
 */
module Nrf24Chip {
  import opened Nrf24L01

  /** One byte per 5-bit register address. */
  type RegisterFile = r: seq<bv8> | |r| == 32 witness seq(32, _ => 0)

  datatype ChipState = ChipState(
    regs: RegisterFile,
    rxAddrP0: seq<bv8>,       // RX_ADDR_P0, least significant byte first
    rxAddrP1: seq<bv8>,       // RX_ADDR_P1
    txAddr: seq<bv8>,         // TX_ADDR
    rxFifo: seq<seq<bv8>>,    // payloads received from the air, oldest first
    ce: bool)                 // level of the chip-enable line

  datatype Line = CE | CSN

  /** What the driver does on the wires, in order. */
  datatype Event =
    | Frame(cmd: bv8, data: seq<bv8>)   // CSN low, command byte, data bytes shifted out, CSN high
    | Query(cmd: bv8, count: nat)       // a frame whose `count` data bytes are left uninitialised
    | Pin(line: Line, high: bool)       // digitalWrite
    | Delay(us: nat)                    // delayMicroseconds

  /** Everything observable below the driver: the chip and the event log. */
  datatype Bus = Bus(chip: ChipState, trace: seq<Event>)

  /** Interrupt flags of STATUS; writing a one to any of them clears it. */
  const STATUS_FLAGS: bv8 := Bit(RX_DR) | Bit(TX_DS) | Bit(MAX_RT)

  /** The byte the chip shifts out first in every frame. */
  function StatusOf(c: ChipState): bv8 {
    c.regs[NRF_STATUS as int]
  }

  /** The chip with STATUS holding `s`, as when it reports a transmission's end. */
  function WithStatus(c: ChipState, s: bv8): (c': ChipState)
    ensures StatusOf(c') == s
  {
    c.(regs := c.regs[NRF_STATUS as int := s])
  }

  /** Only the latest STATUS the chip reports matters. */
  lemma WithStatusTwice(c: ChipState, s1: bv8, s2: bv8)
    ensures WithStatus(WithStatus(c, s1), s2) == WithStatus(c, s2)
  {
    assert WithStatus(WithStatus(c, s1), s2).regs == WithStatus(c, s2).regs;
  }

  predicate IsAddressRegister(a: bv8) {
    a == RX_ADDR_P0 || a == RX_ADDR_P1 || a == TX_ADDR
  }

  predicate IsReadOnly(a: bv8) {
    a == OBSERVE_TX || a == CD || a == FIFO_STATUS
  }

  /** A one-byte register whose value is simply the byte last written to it. */
  predicate IsPlain(a: bv8) {
    a <= REGISTER_MASK && !IsAddressRegister(a) && !IsReadOnly(a) && a != NRF_STATUS
  }

  /**
   * The first `n` bytes of `b`, followed by zeros when `b` is shorter (the
   * chip's output past the end of a register is not modelled).
   */
  function Fill(b: seq<bv8>, n: nat): (r: seq<bv8>)
    ensures |r| == n
    ensures n <= |b| ==> r == b[..n]
  {
    seq(n, i => if 0 <= i < |b| then b[i] else 0)
  }

  /** Bytes register `a` reads as; RX_EMPTY of FIFO_STATUS follows the FIFO. */
  function RegisterBytes(c: ChipState, a: bv8): seq<bv8>
    requires a <= REGISTER_MASK
  {
    if a == RX_ADDR_P0 then c.rxAddrP0
    else if a == RX_ADDR_P1 then c.rxAddrP1
    else if a == TX_ADDR then c.txAddr
    else if a == FIFO_STATUS then
      [(c.regs[a as int] & !Bit(RX_EMPTY)) | (if c.rxFifo == [] then Bit(RX_EMPTY) else 0)]
    else [c.regs[a as int]]
  }

  /**
   * Effect of writing `data` to register `a`: an address register keeps the
   * (at most five) bytes written, STATUS clears the flags written as ones,
   * read-only registers ignore the write, any other register keeps the first byte.
   */
  function WriteRegister(c: ChipState, a: bv8, data: seq<bv8>): ChipState
    requires a <= REGISTER_MASK
  {
    var kept := if |data| <= 5 then data else data[..5];
    if |data| == 0 || IsReadOnly(a) then c
    else if a == RX_ADDR_P0 then c.(rxAddrP0 := kept)
    else if a == RX_ADDR_P1 then c.(rxAddrP1 := kept)
    else if a == TX_ADDR then c.(txAddr := kept)
    else if a == NRF_STATUS then
      c.(regs := c.regs[a as int := c.regs[a as int] & !(data[0] & STATUS_FLAGS)])
    else c.(regs := c.regs[a as int := data[0]])
  }

  /** New chip state after a frame with command `cmd` and data bytes `data`. */
  function Apply(c: ChipState, cmd: bv8, data: seq<bv8>): ChipState {
    if cmd & !REGISTER_MASK == W_REGISTER then WriteRegister(c, cmd & REGISTER_MASK, data)
    else if cmd == FLUSH_RX then c.(rxFifo := [])
    else if cmd == R_RX_PAYLOAD && c.rxFifo != [] then c.(rxFifo := c.rxFifo[1..])
    else c
  }

  /** The `n` data bytes the chip shifts out during a frame with command `cmd`. */
  function Reply(c: ChipState, cmd: bv8, n: nat): (r: seq<bv8>)
    ensures |r| == n
  {
    if cmd & !REGISTER_MASK == R_REGISTER then Fill(RegisterBytes(c, cmd & REGISTER_MASK), n)
    else if cmd == R_RX_PAYLOAD && c.rxFifo != [] then Fill(c.rxFifo[0], n)
    else Fill([], n)
  }

  /** Writing a one-byte register through its write command stores the byte and nothing else. */
  lemma WritePlain(c: ChipState, a: bv8, v: bv8)
    requires IsPlain(a)
    ensures Apply(c, WriteCommand(a), [v]) == c.(regs := c.regs[a as int := v])
    ensures Reply(Apply(c, WriteCommand(a), [v]), ReadCommand(a), 1) == [v]
  {
  }

  /**
   * Writing 1 to 5 bytes to a receive-address register: pipes 0 and 1 keep
   * them all, pipes 2 to 5 keep the first byte only.
   */
  lemma WriteRxAddress(c: ChipState, a: bv8, data: seq<bv8>)
    requires RX_ADDR_P0 <= a <= RX_ADDR_P5 && 1 <= |data| <= 5
    ensures Apply(c, WriteCommand(a), data)
         == if a == RX_ADDR_P0 then c.(rxAddrP0 := data)
            else if a == RX_ADDR_P1 then c.(rxAddrP1 := data)
            else c.(regs := c.regs[a as int := data[0]])
  {
    assert WriteCommand(a) & !REGISTER_MASK == W_REGISTER && WriteCommand(a) & REGISTER_MASK == a;
  }

  /** Reading a one-byte register through its read command returns its byte and changes nothing. */
  lemma ReadPlain(c: ChipState, a: bv8)
    requires a <= REGISTER_MASK && !IsAddressRegister(a) && a != FIFO_STATUS
    ensures Reply(c, ReadCommand(a), 1) == [c.regs[a as int]]
    ensures Apply(c, ReadCommand(a), []) == c
  {
  }

  /** Writing STATUS clears exactly the interrupt flags written as ones. */
  lemma WriteStatus(c: ChipState, v: bv8)
    ensures Apply(c, WriteCommand(NRF_STATUS), [v])
         == c.(regs := c.regs[NRF_STATUS as int := StatusOf(c) & !(v & STATUS_FLAGS)])
  {
  }

  /**
   * The bus and the chip, as one object the driver owns. `Progress` is the
   * chip's own doing (a transmission finishing); every other method is
   * something the driver does on the wires and is logged.
   */
  class Board {
    var bus: Bus

    constructor (chip: ChipState)
      ensures bus == Bus(chip, [])
    {
      bus := Bus(chip, []);
    }

    /** One SPI frame: shift out `cmd` and `data`, shift in the status byte and the reply. */
    method Transfer(cmd: bv8, data: seq<bv8>) returns (status: bv8, reply: seq<bv8>)
      modifies this
      ensures status == StatusOf(old(bus.chip))
      ensures reply == Reply(old(bus.chip), cmd, |data|)
      ensures bus == Bus(Apply(old(bus.chip), cmd, data), old(bus.trace) + [Frame(cmd, data)])
    {
      status := StatusOf(bus.chip);
      reply := Reply(bus.chip, cmd, |data|);
      bus := Bus(Apply(bus.chip, cmd, data), bus.trace + [Frame(cmd, data)]);
    }

    /** A read frame whose outgoing data bytes are uninitialised; reads do not change the chip. */
    method TransferUninitialised(cmd: bv8, count: nat) returns (status: bv8, reply: seq<bv8>)
      requires cmd & !REGISTER_MASK == R_REGISTER
      modifies this
      ensures status == StatusOf(old(bus.chip))
      ensures reply == Reply(old(bus.chip), cmd, count)
      ensures bus == Bus(old(bus.chip), old(bus.trace) + [Query(cmd, count)])
    {
      status := StatusOf(bus.chip);
      reply := Reply(bus.chip, cmd, count);
      bus := Bus(bus.chip, bus.trace + [Query(cmd, count)]);
    }

    method DigitalWrite(line: Line, high: bool)
      modifies this
      ensures bus.trace == old(bus.trace) + [Pin(line, high)]
      ensures bus.chip == if line == CE then old(bus.chip).(ce := high) else old(bus.chip)
    {
      var chip := if line == CE then bus.chip.(ce := high) else bus.chip;
      bus := Bus(chip, bus.trace + [Pin(line, high)]);
    }

    method DelayMicroseconds(us: nat)
      modifies this
      ensures bus == Bus(old(bus.chip), old(bus.trace) + [Delay(us)])
    {
      bus := Bus(bus.chip, bus.trace + [Delay(us)]);
    }

    /** The chip updates STATUS on its own, e.g. when a transmission ends. */
    method Progress(status: bv8)
      modifies this
      ensures bus == Bus(WithStatus(old(bus.chip), status), old(bus.trace))
    {
      bus := Bus(WithStatus(bus.chip, status), bus.trace);
    }
  }
}
