/**
 * The driver itself: class template RF24<ce, cs, t_payload_size>. It keeps
 * two fields of its own, the payload size and the address width; every
 * operation is a fixed sequence of SPI frames, pin writes and delays on the
 * board it owns. Each method is proved to have exactly the effect that a
 * function of RF24Spec describes, and the properties proved about that
 * function carry over.
 */
module TinyRF24 {
  import opened Nrf24L01
  import opened Nrf24Chip
  import Spec = RF24Spec

  /** A `uint8_t` byte count. */
  type Length = n: nat | n < 256

  class RF24 {
    const board: Board
    var payloadSize: bv8
    var addrWidth: bv8

    /** The fields hold values the clamping setters can store: each is its own clamp. */
    ghost predicate Valid()
      reads this
      ensures Valid() ==> Spec.ClampPayloadSize(payloadSize) == payloadSize
      ensures Valid() ==> Spec.ClampAddressWidth(addrWidth) == addrWidth
      ensures Valid() <==> payloadSize == Spec.ClampPayloadSize(payloadSize) && addrWidth == Spec.ClampAddressWidth(addrWidth)
    {
      1 <= payloadSize <= 32 && 3 <= addrWidth <= 5
    }

    /** The template argument `t_payload_size` is passed here; the pin numbers become the CE and CSN lines. */
    constructor (board: Board, tPayloadSize: bv8)
      ensures Valid() && this.board == board
      ensures payloadSize == Spec.ClampPayloadSize(tPayloadSize) && addrWidth == 5
    {
      this.board := board;
      payloadSize := Spec.Max(1, Spec.Min(32, tPayloadSize));
      addrWidth := 5;
    }

    // ---------------------------------------------------------------- bus access

    /** spi(cmd, const buf, len): one frame sending a copy of `data`; the bytes shifted back are dropped. */
    method Spi(cmd: bv8, data: seq<bv8>) returns (status: bv8)
      modifies board
      ensures status == StatusOf(old(board.bus.chip))
      ensures board.bus == Bus(Apply(old(board.bus.chip), cmd, data), old(board.bus.trace) + [Frame(cmd, data)])
    {
      var reply;
      status, reply := board.Transfer(cmd, data);
    }

    /** spi(cmd, buf, len): one frame in which the bytes shifted back replace `buf[..len]`. */
    method SpiInPlace(cmd: bv8, buf: array<bv8>, len: Length) returns (status: bv8)
      requires len <= buf.Length
      modifies buf, board
      ensures status == StatusOf(old(board.bus.chip))
      ensures buf[..len] == Reply(old(board.bus.chip), cmd, len)
      ensures buf[len..] == old(buf[len..])
      ensures board.bus == Bus(Apply(old(board.bus.chip), cmd, old(buf[..len])),
                               old(board.bus.trace) + [Frame(cmd, old(buf[..len]))])
    {
      var reply;
      status, reply := board.Transfer(cmd, buf[..len]);
      forall i | 0 <= i < len {
        buf[i] := reply[i];
      }
    }

    method Status() returns (status: bv8)
      modifies board
      ensures status == StatusOf(old(board.bus.chip))
      ensures board.bus == Bus(old(board.bus.chip), old(board.bus.trace) + [Frame(NOP, [])])
    {
      status := Spi(NOP, []);
    }

    /** Called only with register constants; shifts out an uninitialised byte. */
    method ReadRegister(a: bv8) returns (v: bv8)
      requires a <= REGISTER_MASK
      modifies board
      ensures v == Reply(old(board.bus.chip), ReadCommand(a), 1)[0]
      ensures !IsAddressRegister(a) && a != FIFO_STATUS ==> v == old(board.bus.chip).regs[a as int]
      ensures board.bus == Bus(old(board.bus.chip), old(board.bus.trace) + [Query(ReadCommand(a), 1)])
    {
      var status, reply := board.TransferUninitialised(ReadCommand(a), 1);
      v := reply[0];
      if !IsAddressRegister(a) && a != FIFO_STATUS {
        ReadPlain(old(board.bus.chip), a);
      }
    }

    /** `W_REGISTER | a` with no masking of `a`; returns the status byte. */
    method WriteRegister(a: bv8, v: bv8) returns (status: bv8)
      modifies board
      ensures status == StatusOf(old(board.bus.chip))
      ensures board.bus == Bus(Apply(old(board.bus.chip), WriteCommand(a), [v]),
                               old(board.bus.trace) + [Frame(WriteCommand(a), [v])])
    {
      status := Spi(WriteCommand(a), [v]);
    }

    // ---------------------------------------------------------------- mode control

    method Begin()
      modifies board
      ensures board.bus == Spec.Begin(old(board.bus))
    {
      board.DigitalWrite(CE, false);
      board.DigitalWrite(CSN, true);
      board.DelayMicroseconds(5000);
      var s := WriteRegister(NRF_STATUS, Bit(RX_DR) | Bit(TX_DS) | Bit(MAX_RT));
      s := WriteRegister(SETUP_RETR, 0x3F);
      s := WriteRegister(CONFIG, 0x0A);
      board.DelayMicroseconds(1500);
    }

    method StartListening()
      modifies board
      ensures board.bus == Spec.StartListening(old(board.bus))
    {
      var s := Spi(FLUSH_RX, []);
      var config := ReadRegister(CONFIG);
      s := WriteRegister(CONFIG, Spec.SetBit(config, PRIM_RX));
      board.DigitalWrite(CE, true);
      board.DelayMicroseconds(130);
    }

    method StopListening()
      modifies board
      ensures board.bus == Spec.StopListening(old(board.bus))
    {
      board.DigitalWrite(CE, false);
      board.DelayMicroseconds(250);
      var config := ReadRegister(CONFIG);
      var s := WriteRegister(CONFIG, Spec.ClearBit(config, PRIM_RX));
    }

    method PowerDown()
      modifies board
      ensures board.bus == Spec.PowerDown(old(board.bus))
    {
      var config := ReadRegister(CONFIG);
      var s := WriteRegister(CONFIG, Spec.ClearBit(config, PWR_UP));
    }

    method PowerUp()
      modifies board
      ensures board.bus == Spec.PowerUp(old(board.bus))
    {
      var config := ReadRegister(CONFIG);
      var s := WriteRegister(CONFIG, Spec.SetBit(config, PWR_UP));
      board.DelayMicroseconds(1500);
    }

    // ---------------------------------------------------------------- transmit and receive

    /**
     * Sends the first `len` bytes of `buf` and waits for the outcome. `polls`
     * are the STATUS values the chip reaches at successive polls; the driver
     * waits without bound, so some poll must carry TX_DS or MAX_RT.
     */
    method Write(buf: seq<bv8>, len: Length, polls: seq<bv8>) returns (sent: bool)
      requires len <= |buf|
      requires exists i :: 0 <= i < |polls| && Spec.Done(polls[i])
      modifies board
      ensures board.bus == Spec.Transmit(old(board.bus), buf[..len], polls)
      ensures sent == Spec.Sent(polls)
    {
      var s := Spi(FLUSH_TX, []);
      s := Spi(W_TX_PAYLOAD, buf[..len]);
      board.DigitalWrite(CE, true);
      board.DelayMicroseconds(10);
      board.DigitalWrite(CE, false);
      assert board.bus.chip == old(board.bus.chip).(ce := false);
      assert board.bus.trace == old(board.bus.trace) +
        [Frame(FLUSH_TX, []), Frame(W_TX_PAYLOAD, buf[..len]), Pin(CE, true), Delay(10), Pin(CE, false)];
      s := AwaitOutcome(polls);
      s := WriteRegister(NRF_STATUS, Bit(TX_DS) | Bit(MAX_RT));
      sent := s & Bit(TX_DS) != 0;
    }

    /**
     * The wait loop of write: wait 200 us, then poll STATUS, and repeat until
     * TX_DS or MAX_RT is set; returns the status that ended the wait.
     */
    method AwaitOutcome(polls: seq<bv8>) returns (s: bv8)
      requires exists i :: 0 <= i < |polls| && Spec.Done(polls[i])
      modifies board
      ensures s == polls[Spec.FirstDone(polls)]
      ensures board.bus == Bus(WithStatus(old(board.bus.chip), s),
                               old(board.bus.trace) + Spec.PollEvents(Spec.FirstDone(polls) + 1))
    {
      ghost var c0, t0 := board.bus.chip, board.bus.trace;
      ghost var k := Spec.FirstDone(polls);
      board.DelayMicroseconds(200);
      board.Progress(polls[0]);
      s := Status();
      var i := 1;
      while !Spec.Done(s)
        invariant 1 <= i <= k + 1
        invariant s == polls[i - 1]
        invariant board.bus.chip == WithStatus(c0, s)
        invariant board.bus.trace == t0 + Spec.PollEvents(i)
        decreases k + 1 - i
      {
        board.DelayMicroseconds(200);
        WithStatusTwice(c0, s, polls[i]);
        board.Progress(polls[i]);
        s := Status();
        i := i + 1;
        assert board.bus.trace == t0 + Spec.PollEvents(i - 1) + [Delay(200), Frame(NOP, [])];
      }
    }

    method Available() returns (r: bool)
      modifies board
      ensures r == Spec.Available(old(board.bus.chip))
      ensures board.bus == Bus(old(board.bus.chip), old(board.bus.trace) + Spec.AvailableEvents(old(board.bus.chip)))
    {
      var s := Status();
      if s & Bit(RX_DR) != 0 {
        r := true;
      } else {
        var fifo := ReadRegister(FIFO_STATUS);
        r := fifo & Bit(RX_EMPTY) == 0;
      }
    }

    /** available(&pipe): also reports the pipe-number field of the status byte. */
    method AvailablePipe() returns (pipe: bv8, r: bool)
      modifies board
      ensures pipe == Spec.PipeNumber(StatusOf(old(board.bus.chip)))
      ensures r == Spec.Available(old(board.bus.chip))
      ensures board.bus == Bus(old(board.bus.chip),
                               old(board.bus.trace) + [Frame(NOP, [])] + Spec.AvailableEvents(old(board.bus.chip)))
    {
      var s := Status();
      pipe := (s >> RX_P_NO) & 0x07;
      r := Available();
    }

    /** Fills `buf[..len]` with the payload at the head of the RX FIFO and clears RX_DR. */
    method Read(buf: array<bv8>, len: Length)
      requires len <= buf.Length
      modifies buf, board
      ensures buf[..len] == Spec.ReceivedPayload(old(board.bus.chip), len)
      ensures buf[len..] == old(buf[len..])
      ensures board.bus == Spec.Receive(old(board.bus), len)
    {
      Memset(buf, NOP, len);
      var s := SpiInPlace(R_RX_PAYLOAD, buf, len);
      s := WriteRegister(NRF_STATUS, Bit(RX_DR));
    }

    // ---------------------------------------------------------------- pipes

    method OpenWritingPipe(addr: seq<bv8>)
      requires Valid() && addrWidth as int <= |addr|
      modifies board
      ensures board.bus == Spec.OpenWritingPipe(old(board.bus), addr[..addrWidth], payloadSize)
    {
      var s := Spi(WriteCommand(TX_ADDR), addr[..addrWidth]);
      OpenReadingPipe(0, addr);
    }

    /** The `uint64_t` form: the address is its in-memory bytes. */
    method OpenWritingPipeU64(addr: bv64)
      requires Valid()
      modifies board
      ensures board.bus == Spec.OpenWritingPipe(old(board.bus), Spec.LittleEndian(addr)[..addrWidth], payloadSize)
    {
      OpenWritingPipe(Spec.LittleEndian(addr));
    }

    method OpenReadingPipe(num: bv8, addr: seq<bv8>)
      requires Valid() && addrWidth as int <= |addr|
      modifies board
      ensures board.bus == Spec.OpenReadingPipe(old(board.bus), num, addr[..addrWidth], payloadSize)
    {
      var s := Spi(WriteCommand(RX_ADDR_P0 + num), addr[..addrWidth]);
      var enabled := ReadRegister(EN_RXADDR);
      s := WriteRegister(EN_RXADDR, Spec.SetBit(enabled, num));
      s := WriteRegister(RX_PW_P0 + num, payloadSize);
    }

    /** The `uint64_t` form: the address is its in-memory bytes. */
    method OpenReadingPipeU64(num: bv8, addr: bv64)
      requires Valid()
      modifies board
      ensures board.bus == Spec.OpenReadingPipe(old(board.bus), num, Spec.LittleEndian(addr)[..addrWidth], payloadSize)
    {
      OpenReadingPipe(num, Spec.LittleEndian(addr));
    }

    // ---------------------------------------------------------------- configuration

    method SetChannel(channel: bv8)
      modifies board
      ensures board.bus == Spec.SetChannel(old(board.bus), channel)
    {
      var s := WriteRegister(RF_CH, channel);
    }

    method SetPALevel(level: Spec.PaLevel)
      modifies board
      ensures board.bus == Spec.SetPALevel(old(board.bus), level)
    {
      var setup := ReadRegister(RF_SETUP);
      var s := WriteRegister(RF_SETUP, (setup & 0xF9) | level.Code());
    }

    method SetDataRate(rate: Spec.DataRate)
      modifies board
      ensures board.bus == Spec.SetDataRate(old(board.bus), rate)
    {
      var setup := ReadRegister(RF_SETUP);
      var s := WriteRegister(RF_SETUP, (setup & 0xD7) | rate.Code());
    }

    method SetCRCLength(crc: Spec.CrcLength)
      modifies board
      ensures board.bus == Spec.SetCRCLength(old(board.bus), crc)
    {
      var config := ReadRegister(CONFIG);
      var s := WriteRegister(CONFIG, (config & 0xF3) | crc.Code());
    }

    /** Only the driver's field changes; pipes opened earlier keep their width registers. */
    method SetPayloadSize(size: bv8)
      requires Valid()
      modifies this
      ensures Valid()
      ensures payloadSize == Spec.ClampPayloadSize(size) && addrWidth == old(addrWidth)
      ensures unchanged(board)
    {
      payloadSize := Spec.Max(1, Spec.Min(32, size));
    }

    method SetAddressWidth(size: bv8)
      requires Valid()
      modifies this, board
      ensures Valid()
      ensures addrWidth == Spec.ClampAddressWidth(size) && payloadSize == old(payloadSize)
      ensures board.bus == Spec.SetAddressWidth(old(board.bus), addrWidth)
    {
      addrWidth := Spec.Max(3, Spec.Min(5, size));
      var s := WriteRegister(SETUP_AW, addrWidth - 2);
    }

    method SetAutoAckAll(enable: bool)
      modifies board
      ensures board.bus == Spec.SetAutoAckAll(old(board.bus), enable)
    {
      var s := WriteRegister(EN_AA, if enable then 0x3F else 0);
    }

    method SetAutoAckPipe(pipe: bv8, enable: bool)
      modifies board
      ensures board.bus == Spec.SetAutoAckPipe(old(board.bus), pipe, enable)
    {
      var reg := ReadRegister(EN_AA);
      if enable {
        reg := Spec.SetBit(reg, pipe);
      } else {
        reg := Spec.ClearBit(reg, pipe);
      }
      var s := WriteRegister(EN_AA, reg);
    }
  }

  /** The C library's memset on the first `len` bytes of `buf`. */
  method Memset(buf: array<bv8>, v: bv8, len: Length)
    requires len <= buf.Length
    modifies buf
    ensures buf[..len] == seq(len, _ => v)
    ensures buf[len..] == old(buf[len..])
  {
    forall i | 0 <= i < len {
      buf[i] := v;
    }
  }

  /**
   * A pipe's width register keeps the payload size in force when the pipe was
   * opened: size 16, pipe 1 opened at 0x1122334455, then size 8.
   */
  method PipeWidthScenario(radio: RF24)
    requires radio.Valid() && radio.addrWidth == 5
    modifies radio, radio.board
    ensures radio.Valid() && radio.payloadSize == 8
    ensures radio.board.bus.chip.regs[RX_PW_P1 as int] == 16
    ensures radio.board.bus.chip.rxAddrP1 == [0x55, 0x44, 0x33, 0x22, 0x11]
  {
    radio.SetPayloadSize(16);
    ghost var b := radio.board.bus;
    radio.OpenReadingPipeU64(1, 0x11_2233_4455);
    Spec.AddressByteOrder();
    Spec.OpenReadingPipeEffect(b, 1, Spec.LittleEndian(0x11_2233_4455)[..5], 16);
    radio.SetPayloadSize(8);
  }
}
