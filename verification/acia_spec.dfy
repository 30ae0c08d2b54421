/** The 6551 ACIA of vice/src/aciacore.c as a specification on values: what every register access, alarm and snapshot
    operation does to the chip, to its two alarms in the scheduler and to the serial line. */
module AciaSpec {
  import opened Bits
  import opened Wrappers
  import opened AlarmQueue

  datatype Mode = Normal | Swiftlink | Turbo232

  /** The status register. */
  datatype Sr = Sr(parity: bool, framing: bool, overrun: bool, full: bool, empty: bool, dsr: bool, dcd: bool, top: bool)

  datatype Chip = Chip(
    fd: bool, inTx: Byte, irq: bool, line: bool,
    cmd: Byte, ctrl: Byte, ectrl: Byte, rxdata: Byte, txdata: Byte, lastRead: Byte, status: Sr,
    ticks: int, ticksRx: int,
    activeTx: bool, activeRx: bool, clkTx: Clock, clkRx: Clock,
    rts: bool, dtr: bool)

  const NO_TRANSMIT: Byte := 0
  const TX_STARTED: Byte := 1
  const DR_WRITTEN: Byte := 2

  /** What happens to the transmit data register while the line is open. */
  datatype TxEvent = Written(byte: Byte) | Sent

  /** A byte on the line: when it was sent, and for how many ticks it occupies the line. */
  datatype Transmission = Transmission(byte: Byte, at: int, ticks: int)

  datatype Config = Config(mode: Mode, wired: bool, cyclesPerSecond: nat)

  /** The chip, the state of its alarms in the scheduler, and the clock.  epoch is what clock shifts have taken off
      the clock so far; history and sent cover the current session. */
  datatype World = World(
    config: Config, now: Clock, chip: Chip, tx: Option<Clock>, rx: Option<Clock>,
    epoch: int, history: seq<TxEvent>, sent: seq<Transmission>)

  function Wrap(v: int): Clock {
    v % 0x1_0000_0000
  }

  function Pack(s: Sr): Byte {
    ByteOf(s.top, s.dcd, s.dsr, s.empty, s.full, s.overrun, s.framing, s.parity)
  }

  function Unpack(v: Byte): Sr {
    Sr(Bit0(v), Bit1(v), Bit2(v), Bit3(v), Bit4(v), Bit5(v), Bit6(v), Bit7(v))
  }

  // ---- timing ----

  /** acia_bps_table. */
  const BPS: seq<real> := [
    10.0, 50.0, 75.0, 109.92, 134.58, 150.0, 300.0, 600.0, 1200.0, 1800.0,
    2400.0, 3600.0, 4800.0, 7200.0, 9600.0, 19200.0]

  /** t232_bps_table. */
  const T232_BPS: seq<real> := [230400.0, 115200.0, 57600.0, 28800.0]

  function Bps(mode: Mode, ctrl: Byte, ectrl: Byte): real {
    match mode
    case Normal => BPS[ctrl % 16]
    case Swiftlink => BPS[ctrl % 16] * 2.0
    case Turbo232 => if ctrl % 16 == 0 then T232_BPS[ectrl % 4] else BPS[ctrl % 16] * 2.0
  }

  /** Start, data, parity and stop bits. */
  function FrameBits(cmd: Byte, ctrl: Byte): (n: int)
    ensures 7 <= n <= 12
  {
    (8 - ctrl / 32 % 4) + 1 + Num(Bit5(cmd)) + (if Bit7(ctrl) then 2 else 1)
  }

  lemma BpsRange(mode: Mode, ctrl: Byte, ectrl: Byte)
    ensures 10.0 <= Bps(mode, ctrl, ectrl) <= 230400.0
  {
  }

  function CharTicks(c: Config, cmd: Byte, ctrl: Byte, ectrl: Byte): int {
    BpsRange(c.mode, ctrl, ectrl);
    (c.cyclesPerSecond as real / Bps(c.mode, ctrl, ectrl) * FrameBits(cmd, ctrl) as real).Floor
  }

  function SetTicks(w: World): World {
    var t := CharTicks(w.config, w.chip.cmd, w.chip.ctrl, w.chip.ectrl);
    var v := w.(chip := w.chip.(ticks := t, ticksRx := t * 5 / 4));
    if w.chip.activeRx then SetRx(v) else v
  }

  /** Arm an alarm. */
  function SetRxAt(w: World, delay: int): World {
    var clk := Wrap(w.now + delay);
    w.(chip := w.chip.(clkRx := clk, activeRx := true), rx := Some(clk))
  }

  function SetRx(w: World): World {
    SetRxAt(w, w.chip.ticksRx)
  }

  function SetTx(w: World, delay: int): World {
    var clk := Wrap(w.now + delay);
    w.(chip := w.chip.(clkTx := clk, activeTx := true), tx := Some(clk))
  }

  function UnsetTx(w: World): World {
    w.(chip := w.chip.(activeTx := false), tx := None)
  }

  function UnsetRx(w: World): World {
    w.(chip := w.chip.(activeRx := false), rx := None)
  }

  /** acia_set_int. */
  function Interrupt(w: World, on: bool): World {
    w.(chip := w.chip.(irq := on, line := if w.config.wired then on else w.chip.line))
  }

  // ---- sessions ----

  predicate DtrOn(cmd: Byte) {
    Bit0(cmd)
  }

  /** A byte that waits in the data register when a session begins counts as written in it. */
  function Begin(w: World): World {
    w.(sent := [], history := if w.chip.inTx == DR_WRITTEN then [Written(w.chip.txdata)] else [])
  }

  // ---- registers ----

  /** The receiver runs while RTS is on. */
  function RequestToSend(w: World): World {
    if w.chip.cmd / 4 % 4 == 0 then
      var u := w.(chip := w.chip.(rts := false));
      if w.chip.activeRx then UnsetRx(u) else u
    else
      var u := w.(chip := w.chip.(rts := true));
      if w.chip.activeRx then u else SetTicks(u.(chip := u.chip.(activeRx := true)))
  }

  lemma RequestKeepsCommand(w: World)
    ensures RequestToSend(w).chip.cmd == w.chip.cmd
  {
    hide SetTicks;
    TicksKeepCommand(w.(chip := w.chip.(rts := true, activeRx := true)));
  }

  lemma TicksKeepCommand(w: World)
    ensures SetTicks(w).chip.cmd == w.chip.cmd
  {
    hide CharTicks, Wrap;
  }

  function Handshake(w: World): World {
    var v := RequestToSend(w);
    v.(chip := v.chip.(dtr := DtrOn(w.chip.cmd)))
  }

  /** The byte is in the data register, waiting for the transmitter. */
  function Accepted(w: World, byte: Byte): World {
    w.(chip := w.chip.(txdata := byte, inTx := DR_WRITTEN),
       history := if w.chip.fd then w.history + [Written(byte)] else w.history)
  }

  function StoreData(w: World, byte: Byte): World {
    if !DtrOn(w.chip.cmd) then w.(chip := w.chip.(txdata := byte))
    else
      var u := Accepted(w, byte);
      var t := if w.chip.activeTx then u else SetTx(u, 1);
      t.(chip := t.chip.(status := t.chip.status.(empty := false)))
  }

  /** A write to the status register is a programmed reset. */
  function StoreStatus(w: World): World {
    var v := w.(chip := w.chip.(fd := false, status := w.chip.status.(overrun := false), cmd := w.chip.cmd / 32 * 32,
                                inTx := NO_TRANSMIT));
    Begin(Handshake(UnsetTx(Interrupt(v, false))))
  }

  function StoreCommand(w: World, byte: Byte, up: bool): World {
    var v := Handshake(w.(chip := w.chip.(cmd := byte)));
    if DtrOn(byte) && !v.chip.fd then Begin(SetTicks(v.(chip := v.chip.(fd := up, activeRx := true))))
    else if v.chip.fd && !DtrOn(byte) then
      var u := UnsetTx(v);
      Begin(u.(chip := u.chip.(fd := false)))
    else v
  }

  function Register(c: Config, addr: int): int {
    if c.mode == Turbo232 then addr % 8 else addr % 4
  }

  function Store(w: World, addr: int, byte: Byte, up: bool): World {
    var r := Register(w.config, addr);
    if r == 0 then StoreData(w, byte)
    else if r == 1 then StoreStatus(w)
    else if r == 2 then StoreCommand(w, byte, up)
    else if r == 3 then SetTicks(w.(chip := w.chip.(ctrl := byte)))
    else if r == 7 && w.chip.ctrl % 16 == 0 then SetTicks(w.(chip := w.chip.(ectrl := byte)))
    else w
  }

  /** A read-modify-write instruction stores the value it has read one cycle earlier. */
  function StoreRmw(w: World, addr: int, byte: Byte, up: bool): World {
    var v := Store(w.(now := Wrap(w.now - 1)), addr, w.chip.lastRead, up);
    Store(v.(now := Wrap(v.now + 1)), addr, byte, up)
  }

  function RefreshStatus(w: World, dsr: bool): World {
    w.(chip := w.chip.(status := w.chip.status.(dcd := false, dsr := dsr)))
  }

  function StatusByte(s: Sr, irq: bool): Byte {
    Pack(s.(top := s.top || irq))
  }

  function Read(w: World, addr: int, dsr: bool): (World, Byte) {
    var r := Register(w.config, addr);
    if r == 0 then
      (w.(chip := w.chip.(status := w.chip.status.(full := false), lastRead := w.chip.rxdata)), w.chip.rxdata)
    else if r == 1 then
      var v := RefreshStatus(w, dsr);
      var c := StatusByte(v.chip.status, v.chip.irq);
      var u := Interrupt(v, false);
      (u.(chip := u.chip.(lastRead := c)), c)
    else if r == 2 then (w.(chip := w.chip.(lastRead := w.chip.cmd)), w.chip.cmd)
    else if r == 3 then (w.(chip := w.chip.(lastRead := w.chip.ctrl)), w.chip.ctrl)
    else if r == 7 then (w, U8(w.chip.ectrl + (if w.chip.ctrl % 16 == 0 then 4 else 0)))
    else (w, 0xff)
  }

  // ---- alarms ----

  /** The byte in the data register goes out. */
  function Send(w: World): World {
    w.(chip := w.chip.(status := w.chip.status.(empty := true)),
       history := w.history + [Sent],
       sent := w.sent + [Transmission(w.chip.txdata, w.epoch + w.now, w.chip.ticks)])
  }

  /** int_acia_tx up to the change of in_tx. */
  function Transmit(w: World): World {
    if w.chip.inTx == DR_WRITTEN && w.chip.fd then
      if w.chip.cmd / 4 % 4 == 1 then Interrupt(Send(w), true) else Send(w)
    else w
  }

  /** The transmitter counts down, and the alarm is set again while there is something to wait for. */
  function CountDown(w: World): World {
    if w.chip.inTx <= 1 then UnsetTx(w.(chip := w.chip.(inTx := NO_TRANSMIT)))
    else SetTx(w.(chip := w.chip.(inTx := w.chip.inTx - 1)), w.chip.ticks)
  }

  function TxAlarm(w: World): World {
    CountDown(Transmit(w))
  }

  function Receive(w: World, byte: Byte): World {
    var v := w.(chip := w.chip.(rxdata := byte));
    var u := if Bit1(w.chip.cmd) then v else Interrupt(v, true);
    var s := u.chip.status;
    u.(chip := u.chip.(status := if s.full then s.(overrun := true) else s.(full := true)))
  }

  /** received is what the line has to offer; nothing can be received when it is closed. */
  function RxAlarm(w: World, received: Option<Byte>): World {
    SetRx(if w.chip.fd && received.Some? then Receive(w, received.value) else w)
  }

  // ---- reset and clock shift ----

  function Reset(w: World): World {
    var v := SetTicks(w.(chip := w.chip.(rts := false, dtr := false, cmd := 0, ctrl := 0, ectrl := 0)));
    var u := v.(chip := v.chip.(status := Unpack(0x10), inTx := NO_TRANSMIT, fd := false));
    Begin(Interrupt(UnsetRx(UnsetTx(u)), false))
  }

  function ShiftAlarm(a: Option<Clock>, sub: Clock): Option<Clock> {
    if a.None? then None else Some(Wrap(a.value - sub))
  }

  /** Clock overflow prevention: the scheduler, the chip and the clock all go back. */
  function Shift(w: World, sub: Clock): World {
    w.(now := Wrap(w.now - sub), epoch := w.epoch + sub,
       tx := ShiftAlarm(w.tx, sub), rx := ShiftAlarm(w.rx, sub),
       chip := w.chip.(clkTx := Wrap(w.chip.clkTx - sub), clkRx := Wrap(w.chip.clkRx - sub)))
  }

  // ---- snapshots ----

  /** The module's data; old snapshots end before the RX deadline. */
  datatype Snapshot = Snapshot(
    txdata: Byte, rxdata: Byte, sr: Byte, cmd: Byte, ctrl: Byte, inTx: Byte, act: Clock, aar: Option<Clock>)

  function Save(w: World, dsr: bool): (World, Snapshot) {
    var v := RefreshStatus(w, dsr);
    (v, Snapshot(w.chip.txdata, w.chip.rxdata, StatusByte(v.chip.status, v.chip.irq), w.chip.cmd, w.chip.ctrl, w.chip.inTx,
                 if w.chip.activeTx then Wrap(w.chip.clkTx - w.now) else 0,
                 Some(if w.chip.activeRx then Wrap(w.chip.clkRx - w.now) else 0)))
  }

  /** Open or close the line as the command register of the snapshot asks. */
  function LoadLine(w: World, up: bool): World {
    if DtrOn(w.chip.cmd) && !w.chip.fd then Handshake(w.(chip := w.chip.(fd := up)))
    else if w.chip.fd && !DtrOn(w.chip.cmd) then w.(chip := w.chip.(fd := false))
    else w
  }

  function LoadAlarms(w: World, s: Snapshot): World {
    var v := if s.act == 0 then w else SetRxAt(SetTx(w, s.act), s.act);
    if s.aar.None? then v
    else if s.aar.value == 0 then UnsetRx(v)
    else SetRxAt(v, s.aar.value)
  }

  /** Before the module is up: no alarms, no interrupt. */
  function LoadQuiet(w: World): World {
    var v := UnsetRx(UnsetTx(w));
    Begin(v.(chip := v.chip.(line := false)))
  }

  /** The module's bytes. */
  function LoadRegisters(w: World, s: Snapshot): World {
    var sr := Unpack(s.sr);
    w.(chip := w.chip.(txdata := s.txdata, rxdata := s.rxdata, status := sr.(top := false), cmd := s.cmd,
                       ctrl := s.ctrl, irq := sr.top, line := sr.top && w.config.wired))
  }

  /** What the file holds: a whole module, or one that ends before its seventh field; a module that is missing or too
      new ends before its first. */
  datatype Module = Cut(bytes: seq<Byte>) | Whole(data: Snapshot)

  /** The fields of a cut module that could still be read. */
  function LoadBytes(w: World, bytes: seq<Byte>): World {
    w.(chip := w.chip.(txdata := if |bytes| > 0 then bytes[0] else w.chip.txdata,
                       rxdata := if |bytes| > 1 then bytes[1] else w.chip.rxdata,
                       status := if |bytes| > 2 then Unpack(bytes[2]) else w.chip.status,
                       cmd := if |bytes| > 3 then bytes[3] else w.chip.cmd,
                       ctrl := if |bytes| > 4 then bytes[4] else w.chip.ctrl))
  }

  function LoadWhole(w: World, s: Snapshot, up: bool): World {
    var t := SetTicks(LoadLine(LoadRegisters(w, s), up));
    Begin(LoadAlarms(t.(chip := t.chip.(inTx := s.inTx)), s))
  }

  /** From a cut module only registers are loaded, after the alarms and the interrupt line have been cleared. */
  function Load(w: World, m: Module, up: bool): World {
    var v := LoadQuiet(w);
    if m.Cut? then Begin(LoadBytes(v, m.bytes)) else LoadWhole(v, m.data, up)
  }
}
