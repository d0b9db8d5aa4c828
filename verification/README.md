# tinyRF24 driver, modelled in Dafny

A model of the `RF24` class template of the minimalist Arduino driver
tinyRF24 for the nRF24L01(+) 2.4 GHz radio, with the register map and
opcodes of nRF24L01.hh, and proofs of what each driver operation does to
the chip.

The driver talks to the radio over SPI. Each public operation is a short,
fixed sequence of one-byte commands, pin writes and busy-wait delays. Most
operations are read-modify-writes of one register. The model places the
driver on a `Board`: a simulated chip plus a log of everything the driver
does on the wires.

- `nrf24l01.dfy` (module `Nrf24L01`): register addresses, bit positions,
  opcodes, and `MASK_RF_DR`/`MASK_RF_PWR` as `bv8` constants. `bit(n)` is
  `Bit`. `W_REGISTER | a` and `R_REGISTER | a` are `WriteCommand` and
  `ReadCommand`. Lemmas check the relations the driver's hard-coded masks
  rely on.
- `chip.dfy` (module `Nrf24Chip`): the simulated chip and the `Board`
  class. The chip holds 32 one-byte registers, the three multi-byte
  address registers (`RX_ADDR_P0`, `RX_ADDR_P1`, `TX_ADDR`), the receive
  FIFO and the CE level. It decodes the commands the driver sends, as
  follows:
  - register reads and writes are decoded by opcode and 5-bit address
    field, so an out-of-range address lands where the hardware would put it;
  - STATUS flags are write-one-to-clear;
  - `OBSERVE_TX`, `CD` and `FIFO_STATUS` are read-only;
  - `RX_EMPTY` follows the FIFO;
  - `FLUSH_RX` empties the FIFO and `R_RX_PAYLOAD` pops its head;
  - pipes 2 to 5 keep only the first address byte sent to them.

  The event log records `Frame` (command and data bytes), `Query` (a read
  whose data bytes are the uninitialised `val` of `read_register`), `Pin`
  and `Delay`.
- `rf24_spec.dfy` (module `RF24Spec`): one function per operation, from
  the bus before the call to the bus after it, and the lemmas stating what
  those functions mean. The lemmas cover:
  - clamping;
  - fields that change only under their masks;
  - the pipe table;
  - the listen and stop orders;
  - the transmit and receive protocols.
- `rf24.dfy` (module `TinyRF24`): the driver class `RF24`. It has the two
  fields `payloadSize` and `addrWidth`, and one method per operation. Each
  method's `ensures` ties the new bus to the matching `RF24Spec` function.
  So the lemmas proved about that function hold for the driver.

What the chip does on its own is an input of the model:
- the outcome of a transmission is the sequence `polls` of STATUS values
  that the `write` loop reads;
- received payloads are the FIFO contents of the chip's initial state.

Three points where the code does less than the chip's conventions might
suggest; the model follows the code:
- addresses are not masked to 5 bits before the opcode is OR'ed in;
- `openReadingPipe` sends all `addr_width` address bytes to every pipe, and
  the chip keeps only the first byte for pipes 2 to 5;
- `begin` writes `SETUP_RETR = 0x3F`, which is delay code 3 with 15
  retransmits, not the longest delay.

`openReadingPipe` does not check the pipe number. Pipe number 6 addresses
register 0x10, so it overwrites `TX_ADDR`.
`RF24Spec.PipeSixOverwritesTxAddress` proves this.

## Model

| member | source | states |
|---|---|---|
| Nrf24L01.WriteCommand | tinyRF24.h:247-249 | for a register address (at most 0x1F) the command byte decodes as W_REGISTER and that address; for a larger value only its low five bits reach the address field, since nothing masks it |
| Nrf24L01.ReadCommand | tinyRF24.h:241-245 | for a register address the command byte decodes as R_REGISTER and that address |
| Nrf24L01.RegistersFitMask | nRF24L01.hh:10-35 | every register address the header defines is at most REGISTER_MASK |
| Nrf24L01.CommandsDecode | nRF24L01.hh:91-93 | for a register address the read and write commands differ and both decode back to the address |
| Nrf24L01.PipeRegistersContiguous | nRF24L01.hh:20-32 | RX_ADDR_P0 + n is RX_ADDR_Pn and RX_PW_P0 + n is RX_PW_Pn for n in 0..5 |
| Nrf24L01.RfSetupMasks | nRF24L01.hh:113-114 | MASK_RF_PWR is 0x06 with complement 0xF9, MASK_RF_DR is 0x28 with complement 0xD7: the literals the driver uses |
| Nrf24L01.ConfigMasks | nRF24L01.hh:41-43 | the CRC field is 0x0C with complement 0xF3, and EN_CRC with PWR_UP is 0b1010, the CONFIG value of begin |
| Nrf24L01.StatusClearValues | nRF24L01.hh:68-70 | the STATUS clear values are 0x70 (all three flags) and 0x30 (TX_DS and MAX_RT) |
| Nrf24L01.PipeFieldLayout | nRF24L01.hh:68-72 | the pipe field (s >> RX_P_NO) & 7 is at most 7, sits in STATUS bits 1 to 3, and overlaps neither TX_FULL nor the interrupt flags |
| Nrf24Chip.Board.Transfer | tinyRF24.h:258-264 | one SPI frame returns the status byte the chip held before the frame, returns the chip's reply, applies the command to the chip and logs the frame |
| Nrf24Chip.Board.TransferUninitialised | tinyRF24.h:241-245 | a register read returns the chip's reply, leaves the chip unchanged and logs a frame with uninitialised data |
| Nrf24Chip.WritePlain | tinyRF24.h:247-249 | writing a one-byte register stores the byte, changes nothing else, and the register then reads back as that byte |
| Nrf24Chip.ReadPlain | tinyRF24.h:241-245 | reading a one-byte register returns its byte and changes nothing |
| Nrf24Chip.WriteStatus | tinyRF24.h:72 | a STATUS write clears exactly the interrupt flags written as ones and keeps every other bit |
| Nrf24Chip.WriteRxAddress | tinyRF24.h:105 | sending 1 to 5 address bytes to pipe n's address register stores them all for pipes 0 and 1 and only the first byte for pipes 2 to 5 |
| RF24Spec.PaLevel.Code | tinyRF24.h:12-18 | the power levels 0, 2, 4 and 6 lie inside the RF_SETUP power field; RF24_PA_ERROR (7) fills the field and also sets LNA_HCURR |
| RF24Spec.DataRate.Code | tinyRF24.h:20-24 | the data-rate codes 0, 8 and 0x20 lie inside the RF_SETUP data-rate field |
| RF24Spec.CrcLength.Code | tinyRF24.h:26-30 | the CRC codes 0, 8 and 0x0C lie inside the CONFIG CRC field, and EN_CRC is set exactly for the 8- and 16-bit lengths |
| RF24Spec.CodesDistinct | tinyRF24.h:12-30 | distinct enumerators of each enum have distinct codes, so the setting written can be told from its field |
| RF24Spec.ClampPayloadSize | tinyRF24.h:126-128 | the stored payload size is in 1..32, equals the request when it is in range, and saturates at 1 and 32 |
| RF24Spec.ClampAddressWidth | tinyRF24.h:130-133 | the stored address width is in 3..5, equals the request when it is in range, and saturates at 3 and 5 |
| RF24Spec.AddressWidthCode | tinyRF24.h:132 | the SETUP_AW code written is in 1..3 and is the width minus 2 |
| RF24Spec.SetBit | tinyRF24.h:142 | `v \| bit(n)` has bit n set (n < 8) and every other bit as in v |
| RF24Spec.ClearBit | tinyRF24.h:144 | `v & ~bit(n)` has bit n clear and every other bit as in v |
| RF24Spec.WithPaLevel | tinyRF24.h:114-116 | the power field of RF_SETUP becomes the level's code and every bit outside it is kept; RF24_PA_ERROR also sets LNA_HCURR |
| RF24Spec.WithDataRate | tinyRF24.h:118-120 | the data-rate field of RF_SETUP becomes the rate's code and every bit outside it is kept |
| RF24Spec.WithCrcLength | tinyRF24.h:122-124 | the CRC field of CONFIG becomes the length's code and every bit outside it is kept |
| RF24Spec.LittleEndian | tinyRF24.h:91-93 | a uint64_t address is its eight bytes, least significant first, and they decode back to the same value |
| RF24Spec.LittleEndianOfBytes | tinyRF24.h:100-102 | every eight-byte image is the image of the value it decodes to |
| RF24Spec.AddressByteOrder | tinyRF24.h:100-102 | 0x1122334455 goes out as 55 44 33 22 11 |
| RF24Spec.StoreReadBack | tinyRF24.h:247-249 | a one-byte register written by the driver reads back as the byte written |
| RF24Spec.ReadModifyWriteEffect | tinyRF24.h:149-151 | a read-modify-write reads the register, then writes it, and changes that register and nothing else |
| RF24Spec.BeginConfigures | tinyRF24.h:37-48 | after begin: CE low; CONFIG is 0b1010 (powered up, 1-byte CRC, PRIM_RX clear); SETUP_RETR has delay code 3 and 15 retransmits; the three STATUS flags are clear and the other STATUS bits are kept |
| RF24Spec.StartListeningOrder | tinyRF24.h:50-55 | startListening sends FLUSH_RX, reads CONFIG, writes it back with PRIM_RX set, raises CE, then waits 130 us; no other CONFIG bit changes and the RX FIFO is empty |
| RF24Spec.StopListeningOrder | tinyRF24.h:57-61 | stopListening lowers CE and waits 250 us before it writes CONFIG with PRIM_RX clear and never raises CE; no other CONFIG bit changes |
| RF24Spec.ListenThenStop | tinyRF24.h:50-61 | startListening then stopListening leaves CE low and PRIM_RX clear; every other register and address is as before; the FIFO is flushed |
| RF24Spec.PowerCycle | tinyRF24.h:149-156 | powerDown clears PWR_UP; powerDown then powerUp gives the original CONFIG with PWR_UP set |
| RF24Spec.RfSetupFieldsIndependent | tinyRF24.h:114-120 | for every level except RF24_PA_ERROR, setPALevel and setDataRate, in either order, leave both fields holding their codes |
| RF24Spec.CrcAndPowerIndependent | tinyRF24.h:122-124 | the CRC field survives powerUp and powerDown, and setCRCLength keeps PWR_UP |
| RF24Spec.AutoAckPipeEffect | tinyRF24.h:139-147 | setAutoAck(pipe, enable) leaves bit `pipe` of EN_AA set exactly when enable holds, and keeps the other bits |
| RF24Spec.AutoAckPipeOutOfRange | tinyRF24.h:139-147 | setAutoAck(pipe, enable) with a pipe number of 8 or more leaves EN_AA unchanged, because `bit(pipe)` has no low byte |
| RF24Spec.AutoAckAllEffect | tinyRF24.h:135-137 | setAutoAck(enable) sets the six pipe bits of EN_AA exactly when enable holds, and never the top two bits |
| RF24Spec.OpenReadingPipeEffect | tinyRF24.h:104-108 | for pipes 0 to 5: the pipe's address (the whole address for pipes 0 and 1, its first byte for pipes 2 to 5) is stored; its enable bit is ORed in; its width register holds the payload size; nothing else changes |
| RF24Spec.OpenWritingPipeEffect | tinyRF24.h:95-98 | TX_ADDR and RX_ADDR_P0 hold the same bytes, which read back unchanged; EN_RXADDR gains bit 0 and keeps its other bits; RX_PW_P0 holds the payload size; RX_ADDR_P1, the FIFO, CE and every other register are unchanged |
| RF24Spec.WritingThenReadingPipe0 | tinyRF24.h:95-108 | a later openReadingPipe(0, b) makes RX_ADDR_P0 hold b, while TX_ADDR keeps the writing address |
| RF24Spec.PipeSixOverwritesTxAddress | tinyRF24.h:105 | openReadingPipe(6, a) replaces TX_ADDR with a, its width write is lost on FIFO_STATUS, and bit 6 of EN_RXADDR is set |
| RF24Spec.Sent | tinyRF24.h:72-73 | write returns true exactly when some poll carries TX_DS and no earlier poll carries TX_DS or MAX_RT |
| RF24Spec.FirstDone | tinyRF24.h:69-71 | the poll that ends write's wait is the first one with TX_DS or MAX_RT set |
| RF24Spec.PollEventsShape | tinyRF24.h:69-71 | n rounds of the wait loop are n pairs of a 200 us delay and a NOP frame |
| RF24Spec.TransmitOutcome | tinyRF24.h:63-74 | write leaves TX_DS and MAX_RT clear, keeps the other STATUS bits as last polled, and changes no other register, no address register and not the RX FIFO; it extends the log, starting with FLUSH_TX, loading the payload before a CE pulse of 10 us, leaving CE low, polling once per status up to the first one with a flag, and ending with the 0x30 write to STATUS |
| RF24Spec.MaxRetransmitAtFirstPoll | tinyRF24.h:69-73 | a chip that reports MAX_RT alone at the first poll: write returns false, clears both flags, and logs exactly one poll |
| RF24Spec.Available | tinyRF24.h:76-78 | available() holds exactly when RX_DR is set or the RX FIFO is non-empty |
| RF24Spec.AvailableFallback | tinyRF24.h:76-78 | with RX_DR clear and a non-empty FIFO, available() is true after a FIFO_STATUS read |
| RF24Spec.PipeNumber | tinyRF24.h:80-83 | the pipe number is at most 7 and is the STATUS pipe field shifted down |
| RF24Spec.ReceivedPayload | tinyRF24.h:85-89 | read yields len bytes, the first len bytes of the FIFO's head payload when it is that long |
| RF24Spec.ReceiveEffect | tinyRF24.h:85-89 | read pops the FIFO's head, clears RX_DR and no other STATUS bit, changes nothing else, and logs the 0xFF-filled payload frame then the RX_DR write |
| TinyRF24.RF24.Valid | tinyRF24.h:126-133 | the class invariant: payload_size and addr_width are their own clamps (1..32 and 3..5), the values the clamping setters can store; the constructor establishes it, setPayloadSize and setAddressWidth keep it, and the pipe methods require it |
| TinyRF24.RF24.constructor | tinyRF24.h:234-235 | the initial payload size is the clamp of the template argument, and the address width is 5 |
| TinyRF24.RF24.Spi | tinyRF24.h:251-256 | the const-buffer spi sends a copy of the data and returns the status byte |
| TinyRF24.RF24.SpiInPlace | tinyRF24.h:258-264 | the in-place spi returns the status byte, overwrites buf[..len] with the chip's reply and keeps the rest of buf |
| TinyRF24.RF24.Status | tinyRF24.h:237-239 | status() returns the chip's STATUS and only logs a NOP frame |
| TinyRF24.RF24.ReadRegister | tinyRF24.h:241-245 | read_register returns the register's byte and changes nothing |
| TinyRF24.RF24.WriteRegister | tinyRF24.h:247-249 | write_register applies `W_REGISTER \| a` with one byte and returns the prior status |
| TinyRF24.RF24.Begin | tinyRF24.h:37-48 | has exactly the effect of RF24Spec.Begin; see BeginConfigures |
| TinyRF24.RF24.StartListening | tinyRF24.h:50-55 | has exactly the effect of RF24Spec.StartListening; see StartListeningOrder |
| TinyRF24.RF24.StopListening | tinyRF24.h:57-61 | has exactly the effect of RF24Spec.StopListening; see StopListeningOrder |
| TinyRF24.RF24.Write | tinyRF24.h:63-74 | has the effect RF24Spec.Transmit gives for the polled statuses and returns RF24Spec.Sent; see TransmitOutcome and Sent |
| TinyRF24.RF24.AwaitOutcome | tinyRF24.h:69-71 | the wait loop stops at the first poll with TX_DS or MAX_RT, returns that status, and logs one delay and NOP frame per poll |
| TinyRF24.RF24.Available | tinyRF24.h:76-78 | returns RF24Spec.Available of the chip and reads FIFO_STATUS only when RX_DR is clear |
| TinyRF24.RF24.AvailablePipe | tinyRF24.h:80-83 | stores the STATUS pipe field, then answers as available() |
| TinyRF24.RF24.Read | tinyRF24.h:85-89 | fills buf[..len] with the received payload, keeps the rest of buf, and has the effect of RF24Spec.Receive; see ReceiveEffect |
| TinyRF24.Memset | tinyRF24.h:86 | memset sets the first len bytes and keeps the rest |
| TinyRF24.RF24.OpenWritingPipe | tinyRF24.h:95-98 | has the effect of RF24Spec.OpenWritingPipe with the first addr_width bytes; see OpenWritingPipeEffect |
| TinyRF24.RF24.OpenWritingPipeU64 | tinyRF24.h:91-93 | the same, with the address's little-endian bytes |
| TinyRF24.RF24.OpenReadingPipe | tinyRF24.h:104-108 | has the effect of RF24Spec.OpenReadingPipe with the first addr_width bytes and the current payload size; see OpenReadingPipeEffect |
| TinyRF24.RF24.OpenReadingPipeU64 | tinyRF24.h:100-102 | the same, with the address's little-endian bytes |
| TinyRF24.RF24.SetChannel | tinyRF24.h:110-112 | stores the channel byte in RF_CH and changes nothing else |
| TinyRF24.RF24.SetPALevel | tinyRF24.h:114-116 | RF_SETUP becomes WithPaLevel of its old value, by a read then a write |
| TinyRF24.RF24.SetDataRate | tinyRF24.h:118-120 | RF_SETUP becomes WithDataRate of its old value, by a read then a write |
| TinyRF24.RF24.SetCRCLength | tinyRF24.h:122-124 | CONFIG becomes WithCrcLength of its old value, by a read then a write |
| TinyRF24.RF24.SetPayloadSize | tinyRF24.h:126-128 | stores the clamped size, keeps the address width and leaves the chip untouched |
| TinyRF24.RF24.SetAddressWidth | tinyRF24.h:130-133 | stores the clamped width and writes width - 2 to SETUP_AW |
| TinyRF24.RF24.SetAutoAckAll | tinyRF24.h:135-137 | writes 0x3F or 0 to EN_AA |
| TinyRF24.RF24.SetAutoAckPipe | tinyRF24.h:139-147 | EN_AA becomes its old value with bit pipe set or cleared; see AutoAckPipeEffect |
| TinyRF24.RF24.PowerDown | tinyRF24.h:149-151 | CONFIG loses PWR_UP; see PowerCycle |
| TinyRF24.RF24.PowerUp | tinyRF24.h:153-156 | CONFIG gains PWR_UP, then the 1.5 ms delay; see PowerCycle |
| TinyRF24.PipeWidthScenario | tinyRF24.h:104-108 | a pipe opened at payload size 16 keeps width 16 after setPayloadSize(8), and 0x1122334455 is stored as 55 44 33 22 11 |

## Left out

- `printDetails` and `debug` (tinyRF24.h:158-231): formatted diagnostic output on the serial port only.
- `SPI.begin`, `pinMode`, and the CSN toggles inside `spi`: Arduino library calls. A `Frame` event stands for one CSN-low, transfer, CSN-high exchange.
- Real time: `delayMicroseconds` is a `Delay` event with its duration, so ordering can be checked, but time itself is not modelled.
- Radio physics: the TX FIFO is not modelled, and `FLUSH_TX` and `W_TX_PAYLOAD` do not change the simulated chip. Transmission outcomes come from the `polls` input. Received payloads are the initial RX FIFO contents.
- TinyRF24.RF24.Write: requires that some polled status has TX_DS or MAX_RT set. The driver waits without bound, and a wait that never ends is not modelled.
- TinyRF24.RF24.ReadRegister: requires an address of at most 0x1F. The driver only passes register constants, and a larger value would be decoded as another command.
- Nrf24L01.Bit: models the low byte of `bit(n)` only. It is 0 for n from 8 to 31, and shifts of 32 or more, which are undefined in C++, are not modelled.
- Nrf24Chip.Reply: bytes read past the end of a register read as 0. What the chip shifts out there is not modelled.
- Address registers keep the last 1 to 5 bytes written as a whole. A partial overwrite of a longer address is not modelled.
- The registers 0x18 to 0x1B, DYNPD and FEATURE are plain bytes. The dynamic-payload and ACK-payload features of the nRF24L01+ are not used by the driver and are not modelled.
- RF24Spec.AutoAckPipeEffect: stated for pipe numbers below 8 only; RF24Spec.AutoAckPipeOutOfRange covers larger numbers, where EN_AA is left unchanged.
- Nrf24Chip.Apply: register writes take effect whatever the CE level and the chip's mode. The datasheet allows W_REGISTER only in power-down and standby, so the register-effect lemmas also cover calls made while listening with CE high, where the real chip's behaviour is undefined. The driver's own order (stopListening lowers CE and waits 250 us before it writes CONFIG) is stated by RF24Spec.StopListeningOrder.
- Nrf24Chip.Apply: commands other than register reads and writes, FLUSH_RX and R_RX_PAYLOAD leave the simulated chip unchanged. That includes W_TX_PAYLOAD, FLUSH_TX, REUSE_TX_PL, ACTIVATE, R_RX_PL_WID and W_ACK_PAYLOAD.
- Nrf24Chip.Reply: R_RX_PAYLOAD on an empty RX FIFO reads as zeros, so RF24Spec.ReceivedPayload is then `len` zero bytes. What the chip shifts out in that case is not modelled.
