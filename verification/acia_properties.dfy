/** What holds of the ACIA in every run: register accesses, alarms, resets, snapshots and clock shifts in any order. */
module AciaProperties {
  import opened Bits
  import opened Wrappers
  import opened AlarmQueue
  import opened AciaSpec

  // ---- invariants ----

  /** The chip's own idea of its alarms is the scheduler's. */
  predicate Mirror(w: World) {
    w.chip.activeTx == w.tx.Some? && (w.tx.Some? ==> w.tx.value == w.chip.clkTx)
    && w.chip.activeRx == w.rx.Some? && (w.rx.Some? ==> w.rx.value == w.chip.clkRx)
  }

  /** A transmit alarm has something to do, and an empty data register holds nothing to send. */
  predicate Transmitter(w: World) {
    w.chip.inTx <= DR_WRITTEN && (w.tx.Some? ==> w.chip.inTx != NO_TRANSMIT)
    && (w.chip.status.empty ==> w.chip.inTx != DR_WRITTEN)
  }

  /** The interrupt line follows the latch. */
  predicate Latch(w: World) {
    w.config.wired ==> w.chip.line == w.chip.irq
  }

  /** A character takes time, at most 1.2 seconds of it, and a quarter more on reception. */
  predicate Timed(w: World) {
    1 <= w.chip.ticks <= 6 * w.config.cyclesPerSecond / 5 && w.chip.ticksRx == w.chip.ticks * 5 / 4
  }

  /** Bit 7 of the stored status is never set; the line is open only while DTR is on. */
  predicate Sane(w: World) {
    !w.chip.status.top && (w.chip.fd ==> DtrOn(w.chip.cmd)) && w.config.cyclesPerSecond >= 32915 && Timed(w)
  }

  // ---- transmit history ----

  /** The bytes that are sent: those of writes that no other write follows before the transmitter takes them. */
  function Survivors(h: seq<TxEvent>): seq<Byte> {
    if |h| < 2 then []
    else (if h[0].Written? && h[1].Sent? then [h[0].byte] else []) + Survivors(h[1..])
  }

  /** Nothing is sent twice. */
  ghost predicate Alternates(h: seq<TxEvent>) {
    forall i :: 0 <= i < |h| && h[i].Sent? ==> 0 < i && h[i - 1].Written?
  }

  function Bytes(sent: seq<Transmission>): seq<Byte> {
    if sent == [] then [] else Bytes(sent[..|sent| - 1]) + [sent[|sent| - 1].byte]
  }

  /** A transmission starts when the one before has left the line. */
  ghost predicate Spaced(sent: seq<Transmission>) {
    forall i, j :: 0 <= i < j < |sent| && j == i + 1 ==> sent[j].at >= sent[i].at + sent[i].ticks
  }

  /** The byte in the data register is the last one written. */
  predicate PendingByte(w: World) {
    var h := w.history;
    (w.chip.inTx == DR_WRITTEN <==> h != [] && h[|h| - 1].Written?)
    && (w.chip.inTx == DR_WRITTEN ==> h[|h| - 1].byte == w.chip.txdata)
  }

  /** At absolute time t the last transmission is over, or the transmit alarm waits for its end. */
  predicate LineFree(w: World, t: int) {
    w.sent != [] ==>
      var last := w.sent[|w.sent| - 1];
      t >= last.at + last.ticks || (w.tx.Some? && w.epoch + w.tx.value >= last.at + last.ticks)
  }

  ghost predicate History(w: World, t: int) {
    w.chip.inTx <= DR_WRITTEN && w.chip.fd ==>
      Bytes(w.sent) == Survivors(w.history) && Alternates(w.history) && PendingByte(w) && Spaced(w.sent) && LineFree(w, t)
  }

  lemma {:induction false} SurvivorsAppend(h: seq<TxEvent>, e: TxEvent)
    ensures Survivors(h + [e]) ==
            Survivors(h) + (if h != [] && h[|h| - 1].Written? && e.Sent? then [h[|h| - 1].byte] else [])
  {
    if |h| >= 2 {
      assert (h + [e])[1..] == h[1..] + [e];
      SurvivorsAppend(h[1..], e);
    }
  }

  lemma BytesAppend(sent: seq<Transmission>, t: Transmission)
    ensures Bytes(sent + [t]) == Bytes(sent) + [t.byte]
  {
    assert (sent + [t])[..|sent|] == sent;
  }

  // ---- runs ----

  datatype Event =
    | StoreAt(addr: int, byte: Byte, up: bool)
    | StoreRmwAt(addr: int, byte: Byte, up: bool)
    | ReadAt(addr: int, dsr: bool)
    | TxDue
    | RxDue(received: Option<Byte>)
    | Pass(cycles: nat)
    | ResetLine
    | ShiftClock(sub: Clock)
    | SaveModule(dsr: bool)
    | LoadModule(m: Module, up: bool)

  /** Alarms run when they are due, and the clock itself does not wrap. */
  predicate Possible(w: World, e: Event) {
    match e
    case TxDue => w.tx.Some? && w.tx.value <= w.now
    case RxDue(_) => w.rx.Some? && w.rx.value <= w.now
    case Pass(n) => w.now + n <= NONE
    case ShiftClock(sub) => sub <= w.now
    case _ => true
  }

  /** If the transmit alarm sends a byte now, the deadline at which the line is free again does not wrap. */
  predicate LineLasts(w: World) {
    w.chip.fd && w.chip.inTx == DR_WRITTEN ==> w.now + w.chip.ticks <= NONE
  }

  function Step(w: World, e: Event): World
    requires Possible(w, e)
  {
    match e
    case StoreAt(addr, byte, up) => Store(w, addr, byte, up)
    case StoreRmwAt(addr, byte, up) => StoreRmw(w, addr, byte, up)
    case ReadAt(addr, dsr) => Read(w, addr, dsr).0
    case TxDue => TxAlarm(w)
    case RxDue(received) => RxAlarm(w, received)
    case Pass(n) => w.(now := w.now + n)
    case ResetLine => Reset(w)
    case ShiftClock(sub) => Shift(w, sub)
    case SaveModule(dsr) => Save(w, dsr).0
    case LoadModule(m, up) => Load(w, m, up)
  }

  // ---- every step keeps the mirror ----

  predicate SameTime(w: World, v: World) {
    v.now == w.now && v.epoch == w.epoch && v.config == w.config
  }

  predicate Kept(w: World, v: World) {
    SameTime(w, v) && Mirror(v) && Sane(v) && (Latch(w) ==> Latch(v)) && (Transmitter(w) ==> Transmitter(v))
  }

  /** set_acia_ticks touches the timing and the RX alarm only, and arms that alarm when it is active. */
  lemma TicksOnly(w: World)
    ensures var v := SetTicks(w);
            v == w.(chip := v.chip, rx := v.rx)
            && v.chip == w.chip.(ticks := v.chip.ticks, ticksRx := v.chip.ticksRx, clkRx := v.chip.clkRx)
            && (w.chip.activeRx ==> v.rx == Some(v.chip.clkRx)) && (!w.chip.activeRx ==> v.rx == w.rx)
    ensures w.config.cyclesPerSecond >= 32915 ==> Timed(SetTicks(w))
  {
    hide CharTicks, Wrap;
    if w.config.cyclesPerSecond >= 32915 {
      TicksRange(w.config, w.chip.cmd, w.chip.ctrl, w.chip.ectrl);
    }
  }

  lemma RequestOnly(w: World)
    requires w.chip.activeRx == w.rx.Some? && (w.rx.Some? ==> w.rx.value == w.chip.clkRx)
    ensures var v := RequestToSend(w);
            v == w.(chip := v.chip, rx := v.rx)
            && v.chip == w.chip.(ticks := v.chip.ticks, ticksRx := v.chip.ticksRx, clkRx := v.chip.clkRx,
                                 activeRx := v.chip.activeRx, rts := v.chip.rts)
            && v.chip.activeRx == v.rx.Some? && (v.rx.Some? ==> v.rx.value == v.chip.clkRx)
    ensures w.config.cyclesPerSecond >= 32915 && Timed(w) ==> Timed(RequestToSend(w))
  {
    hide SetTicks;
    TicksOnly(w.(chip := w.chip.(rts := true, activeRx := true)));
  }

  /** acia_set_handshake_lines touches the lines, the timing and the RX alarm only. */
  lemma HandshakeOnly(w: World)
    requires w.chip.activeRx == w.rx.Some? && (w.rx.Some? ==> w.rx.value == w.chip.clkRx)
    ensures var v := Handshake(w);
            v == w.(chip := v.chip, rx := v.rx)
            && v.chip == w.chip.(ticks := v.chip.ticks, ticksRx := v.chip.ticksRx, clkRx := v.chip.clkRx,
                                 activeRx := v.chip.activeRx, rts := v.chip.rts, dtr := v.chip.dtr)
            && v.chip.activeRx == v.rx.Some? && (v.rx.Some? ==> v.rx.value == v.chip.clkRx)
    ensures w.config.cyclesPerSecond >= 32915 && Timed(w) ==> Timed(Handshake(w))
  {
    hide RequestToSend, DtrOn;
    RequestOnly(w);
  }

  lemma BeginOnly(w: World)
    ensures Begin(w) == w.(history := Begin(w).history, sent := [])
  {
  }

  lemma StoreDataKeeps(w: World, byte: Byte)
    requires Mirror(w) && Sane(w)
    ensures Kept(w, StoreData(w, byte))
  {
    hide Wrap;
  }

  lemma StoreStatusKeeps(w: World)
    requires Mirror(w) && Sane(w)
    ensures Kept(w, StoreStatus(w))
  {
    hide Handshake;
    var v := w.(chip := w.chip.(fd := false, status := w.chip.status.(overrun := false), cmd := w.chip.cmd / 32 * 32,
                                inTx := NO_TRANSMIT));
    HandshakeOnly(UnsetTx(Interrupt(v, false)));
  }

  lemma StoreCommandKeeps(w: World, byte: Byte, up: bool)
    requires Mirror(w) && Sane(w)
    ensures Kept(w, StoreCommand(w, byte, up))
  {
    hide Handshake, SetTicks, DtrOn, Begin;
    HandshakeOnly(w.(chip := w.chip.(cmd := byte)));
    var v := Handshake(w.(chip := w.chip.(cmd := byte)));
    var u := v.(chip := v.chip.(fd := up, activeRx := true));
    TicksOnly(u);
    BeginOnly(SetTicks(u));
    var c := UnsetTx(v);
    BeginOnly(c.(chip := c.chip.(fd := false)));
  }

  lemma StoreKeeps(w: World, addr: int, byte: Byte, up: bool)
    requires Mirror(w) && Sane(w)
    ensures Kept(w, Store(w, addr, byte, up))
  {
    hide StoreData, StoreStatus, StoreCommand, SetTicks;
    StoreDataKeeps(w, byte);
    StoreStatusKeeps(w);
    StoreCommandKeeps(w, byte, up);
    TicksOnly(w.(chip := w.chip.(ctrl := byte)));
    TicksOnly(w.(chip := w.chip.(ectrl := byte)));
  }

  lemma StoreRmwKeeps(w: World, addr: int, byte: Byte, up: bool)
    requires Mirror(w) && Sane(w)
    ensures Kept(w, StoreRmw(w, addr, byte, up))
  {
    hide Store, Mirror, Sane, Latch, Transmitter;
    var v := w.(now := Wrap(w.now - 1));
    NowFree(w, v, 0);
    StoreKeeps(v, addr, w.chip.lastRead, up);
    var u := Store(v, addr, w.chip.lastRead, up);
    NowFree(u, u.(now := Wrap(u.now + 1)), 0);
    StoreKeeps(u.(now := Wrap(u.now + 1)), addr, byte, up);
  }

  lemma InterruptOnly(w: World, on: bool)
    ensures var v := Interrupt(w, on);
            v == w.(chip := v.chip) && v.chip == w.chip.(irq := on, line := v.chip.line) && (Latch(w) ==> Latch(v))
  {
  }

  lemma TransmitKeeps(w: World)
    requires Mirror(w) && Sane(w)
    ensures var v := Transmit(w);
            SameTime(w, v) && Mirror(v) && Sane(v) && (Latch(w) ==> Latch(v)) && v.chip.inTx == w.chip.inTx
            && (w.chip.inTx != DR_WRITTEN ==> v.chip.status == w.chip.status)
  {
    hide Interrupt;
    InterruptOnly(Send(w), true);
  }

  lemma CountDownKeeps(w: World)
    requires Mirror(w) && Sane(w)
    ensures var v := CountDown(w);
            SameTime(w, v) && Mirror(v) && Sane(v) && (Latch(w) ==> Latch(v))
            && (w.chip.inTx <= DR_WRITTEN ==> Transmitter(v))
  {
    hide Wrap;
  }

  lemma TxAlarmKeeps(w: World)
    requires Mirror(w) && Sane(w)
    ensures Kept(w, TxAlarm(w))
  {
    hide CountDown, Transmit;
    TransmitKeeps(w);
    CountDownKeeps(Transmit(w));
  }

  lemma ReceiveKeeps(w: World, byte: Byte)
    requires Mirror(w) && Sane(w)
    ensures var v := Receive(w, byte);
            Kept(w, v) && v.tx == w.tx && v.chip.inTx == w.chip.inTx
  {
  }

  lemma RxAlarmKeeps(w: World, received: Option<Byte>)
    requires Mirror(w) && Sane(w)
    ensures Kept(w, RxAlarm(w, received))
  {
    hide Wrap, Receive;
    if received.Some? {
      ReceiveKeeps(w, received.value);
    }
  }

  lemma RefreshKeeps(w: World, dsr: bool)
    requires Mirror(w) && Sane(w)
    ensures Kept(w, RefreshStatus(w, dsr))
  {
  }

  lemma QuietKeeps(w: World, c: Byte)
    requires Mirror(w) && Sane(w)
    ensures Kept(w, Interrupt(w, false)) && Kept(w, w.(chip := w.chip.(lastRead := c)))
  {
  }

  lemma ReadKeeps(w: World, addr: int, dsr: bool)
    requires Mirror(w) && Sane(w)
    ensures Kept(w, Read(w, addr, dsr).0)
  {
    hide StatusByte, RefreshStatus, Interrupt, U8;
    if Register(w.config, addr) == 1 {
      var v := RefreshStatus(w, dsr);
      RefreshKeeps(w, dsr);
      QuietKeeps(v, 0);
      QuietKeeps(Interrupt(v, false), StatusByte(v.chip.status, v.chip.irq));
    } else {
      QuietKeeps(w, w.chip.cmd);
      QuietKeeps(w, w.chip.ctrl);
    }
  }

  lemma SaveKeeps(w: World, dsr: bool)
    requires Mirror(w) && Sane(w)
    ensures Kept(w, Save(w, dsr).0)
  {
    hide RefreshStatus, StatusByte;
    RefreshKeeps(w, dsr);
  }

  lemma ShiftKeeps(w: World, sub: Clock)
    requires Mirror(w) && Sane(w)
    ensures var v := Shift(w, sub);
            Mirror(v) && Sane(v) && (Latch(w) ==> Latch(v)) && (Transmitter(w) ==> Transmitter(v))
  {
    hide Wrap;
  }

  lemma ResetStatus()
    ensures !Unpack(0x10).top && Unpack(0x10).empty
  {
  }

  /** A reset brings any chip into a good state. */
  lemma ResetEstablishes(w: World)
    requires w.config.cyclesPerSecond >= 32915
    ensures var v := Reset(w);
            SameTime(w, v) && Mirror(v) && Sane(v) && Transmitter(v) && v.tx.None? && v.rx.None? && !v.chip.irq
    ensures Latch(Reset(w))
  {
    hide SetTicks, Unpack;
    var v := w.(chip := w.chip.(rts := false, dtr := false, cmd := 0, ctrl := 0, ectrl := 0));
    TicksOnly(v);
    var u := SetTicks(v);
    var t := u.(chip := u.chip.(status := Unpack(0x10), inTx := NO_TRANSMIT, fd := false));
    BeginOnly(Interrupt(UnsetRx(UnsetTx(t)), false));
    ResetStatus();
  }

  /** The chip with the module's bytes, before the line and the alarms are restored. */
  function Loaded(w: World, s: Snapshot): World {
    LoadRegisters(LoadQuiet(w), s)
  }

  predicate Quiet(w: World) {
    Mirror(w) && w.tx.None? && w.rx.None? && !w.chip.status.top && Latch(w)
    && w.config.cyclesPerSecond >= 32915 && Timed(w)
  }

  lemma LoadedQuiet(w: World, s: Snapshot)
    requires Sane(w)
    ensures Quiet(Loaded(w, s)) && Loaded(w, s).chip.fd == w.chip.fd && SameTime(w, Loaded(w, s))
  {
    hide Unpack;
  }

  lemma LoadLineKeeps(w: World, up: bool)
    requires Quiet(w)
    ensures var v := LoadLine(w, up);
            SameTime(w, v) && Mirror(v) && Sane(v) && Latch(v)
  {
    hide Handshake, DtrOn;
    HandshakeOnly(w.(chip := w.chip.(fd := up)));
  }

  predicate Stays(w: World, v: World) {
    SameTime(w, v) && Mirror(v) && Sane(v) && Latch(v)
  }

  lemma AlarmsKeep(w: World, d: int)
    requires Mirror(w) && Sane(w) && Latch(w)
    ensures Stays(w, SetTx(w, d)) && Stays(w, SetRxAt(w, d)) && Stays(w, UnsetRx(w))
  {
    hide Wrap;
  }

  lemma LoadAlarmsKeeps(w: World, s: Snapshot)
    requires Mirror(w) && Sane(w) && Latch(w)
    ensures Stays(w, LoadAlarms(w, s))
  {
    hide SetTx, SetRxAt, UnsetRx, Mirror, Sane, Latch;
    AlarmsKeep(w, s.act);
    AlarmsKeep(SetTx(w, s.act), s.act);
    var v := if s.act == 0 then w else SetRxAt(SetTx(w, s.act), s.act);
    AlarmsKeep(v, if s.aar.Some? then s.aar.value else 0);
  }

  /** A module that ends too early leaves bit 7 in the stored status when its third byte has it, and an open line
      without DTR when its fourth byte clears DTR. */
  predicate CutSane(open: bool, bytes: seq<Byte>) {
    (|bytes| > 2 ==> bytes[2] < 0x80) && (open && |bytes| > 3 ==> DtrOn(bytes[3]))
  }

  /** A snapshot may bring any transmitter state along; a module that ends too early clears the line but not the
      latch, and its registers are sane only as far as its bytes are. */
  lemma LoadKeeps(w: World, m: Module, up: bool)
    requires Mirror(w) && Sane(w)
    ensures SameTime(w, Load(w, m, up)) && Mirror(Load(w, m, up))
    ensures Sane(Load(w, m, up)) <==> m.Whole? || CutSane(w.chip.fd, m.bytes)
    ensures Latch(Load(w, m, up)) <==> m.Whole? || !w.config.wired || !w.chip.irq
  {
    hide SetTicks, LoadLine, LoadAlarms, DtrOn;
    if m.Whole? {
      hide Unpack;
      var s := m.data;
      LoadedQuiet(w, s);
      var u := LoadLine(Loaded(w, s), up);
      LoadLineKeeps(Loaded(w, s), up);
      TicksOnly(u);
      var t := SetTicks(u);
      LoadAlarmsKeeps(t.(chip := t.chip.(inTx := s.inTx)), s);
    }
  }

  lemma StepKeeps(w: World, e: Event)
    requires Mirror(w) && Sane(w) && Possible(w, e)
    ensures Mirror(Step(w, e))
    ensures Sane(Step(w, e)) <==> !(e.LoadModule? && e.m.Cut? && !CutSane(w.chip.fd, e.m.bytes))
    ensures SameTime(w, Step(w, e)) || e.Pass? || e.ShiftClock?
    ensures Latch(w) && !(e.LoadModule? && e.m.Cut?) ==> Latch(Step(w, e))
    ensures Transmitter(w) && !e.LoadModule? ==> Transmitter(Step(w, e))
  {
    hide Store, StoreRmw, TxAlarm, RxAlarm, Reset, Load, Read, Save, Shift;
    match e
    case StoreAt(addr, byte, up) => StoreKeeps(w, addr, byte, up);
    case StoreRmwAt(addr, byte, up) => StoreRmwKeeps(w, addr, byte, up);
    case ReadAt(addr, dsr) => ReadKeeps(w, addr, dsr);
    case SaveModule(dsr) => SaveKeeps(w, dsr);
    case TxDue => TxAlarmKeeps(w);
    case RxDue(received) => RxAlarmKeeps(w, received);
    case ShiftClock(sub) => ShiftKeeps(w, sub);
    case ResetLine => ResetEstablishes(w);
    case LoadModule(m, up) => LoadKeeps(w, m, up);
    case _ =>
  }

  // ---- every step keeps the history ----

  /** Nothing that the history depends on has changed. */
  predicate Unheard(w: World, v: World) {
    v.chip.fd == w.chip.fd && v.chip.inTx == w.chip.inTx && v.chip.txdata == w.chip.txdata
    && v.history == w.history && v.sent == w.sent && v.tx == w.tx && v.epoch == w.epoch
  }

  lemma BeginHistory(w: World, t: int)
    ensures History(Begin(w), t)
  {
  }

  lemma StoreDataFacts(w: World, byte: Byte)
    requires w.chip.activeTx == w.tx.Some? && DtrOn(w.chip.cmd) && w.chip.fd
    ensures var v := StoreData(w, byte);
            v.history == w.history + [Written(byte)] && v.sent == w.sent && v.epoch == w.epoch && v.chip.fd
            && v.chip.inTx == DR_WRITTEN && v.chip.txdata == byte && (w.tx.Some? ==> v.tx == w.tx)
  {
    hide Wrap;
  }

  lemma AlternatesAppend(h: seq<TxEvent>, e: TxEvent)
    requires Alternates(h) && (e.Sent? ==> h != [] && h[|h| - 1].Written?)
    ensures Alternates(h + [e])
  {
  }

  lemma StoreDataHistory(w: World, byte: Byte, t: int)
    requires Sane(w) && Mirror(w) && History(w, t) && w.chip.inTx <= DR_WRITTEN
    ensures History(StoreData(w, byte), t)
  {
    hide StoreData, Survivors, Alternates;
    if w.chip.fd {
      StoreDataFacts(w, byte);
      SurvivorsAppend(w.history, Written(byte));
      AlternatesAppend(w.history, Written(byte));
    } else {
      assert !StoreData(w, byte).chip.fd by { StoreDataClosed(w, byte); }
    }
  }

  lemma StoreDataClosed(w: World, byte: Byte)
    ensures StoreData(w, byte).chip.fd == w.chip.fd
  {
    hide SetTx, Accepted, DtrOn;
    AcceptedLine(w, byte);
  }

  lemma AcceptedLine(w: World, byte: Byte)
    ensures Accepted(w, byte).chip.fd == w.chip.fd && SetTx(Accepted(w, byte), 1).chip.fd == w.chip.fd
  {
    hide Wrap;
  }

  lemma StoreCommandHistory(w: World, byte: Byte, up: bool, t: int)
    requires Sane(w) && Mirror(w) && History(w, t)
    ensures History(StoreCommand(w, byte, up), t)
  {
    hide Handshake, SetTicks, DtrOn, Begin, History;
    HandshakeOnly(w.(chip := w.chip.(cmd := byte)));
    var v := Handshake(w.(chip := w.chip.(cmd := byte)));
    var u := v.(chip := v.chip.(fd := up, activeRx := true));
    BeginHistory(SetTicks(u), t);
    var c := UnsetTx(v);
    BeginHistory(c.(chip := c.chip.(fd := false)), t);
    UnheardHistory(w, v, t);
  }

  lemma UnheardHistory(w: World, v: World, t: int)
    ensures Unheard(w, v) && History(w, t) ==> History(v, t)
  {
  }

  lemma StoreHistory(w: World, addr: int, byte: Byte, up: bool, t: int)
    requires Sane(w) && Mirror(w) && History(w, t) && w.chip.inTx <= DR_WRITTEN
    ensures History(Store(w, addr, byte, up), t)
  {
    hide StoreData, StoreCommand, SetTicks, History, Begin, Handshake;
    var r := Register(w.config, addr);
    if r == 0 {
      StoreDataHistory(w, byte, t);
    } else if r == 1 {
      var v := w.(chip := w.chip.(fd := false, status := w.chip.status.(overrun := false),
                                  cmd := w.chip.cmd / 32 * 32, inTx := NO_TRANSMIT));
      BeginHistory(Handshake(UnsetTx(Interrupt(v, false))), t);
    } else if r == 2 {
      StoreCommandHistory(w, byte, up, t);
    } else {
      TicksOnly(w.(chip := w.chip.(ctrl := byte)));
      TicksOnly(w.(chip := w.chip.(ectrl := byte)));
      UnheardHistory(w, Store(w, addr, byte, up), t);
    }
  }

  lemma SendHistory(w: World, t: int)
    requires History(w, t) && w.chip.fd && w.chip.inTx == DR_WRITTEN && w.tx.Some? && w.tx.value <= w.now
    requires t == w.epoch + w.now
    ensures var h, s := w.history + [Sent], w.sent + [Transmission(w.chip.txdata, t, w.chip.ticks)];
            Bytes(s) == Survivors(h) && Alternates(h) && Spaced(s)
  {
    SurvivorsAppend(w.history, Sent);
    BytesAppend(w.sent, Transmission(w.chip.txdata, t, w.chip.ticks));
  }

  lemma TxAlarmFacts(w: World)
    requires w.chip.inTx <= DR_WRITTEN
    ensures var v := TxAlarm(w);
            var sends := w.chip.fd && w.chip.inTx == DR_WRITTEN;
            v.history == (if sends then w.history + [Sent] else w.history)
            && v.sent == (if sends then w.sent + [Transmission(w.chip.txdata, w.epoch + w.now, w.chip.ticks)] else w.sent)
            && v.tx == (if w.chip.inTx == DR_WRITTEN then Some(Wrap(w.now + w.chip.ticks)) else None)
            && v.chip.inTx == (if w.chip.inTx == DR_WRITTEN then TX_STARTED else NO_TRANSMIT)
            && v.epoch == w.epoch && v.chip.fd == w.chip.fd && v.chip.txdata == w.chip.txdata && v.now == w.now
  {
    hide Wrap, Interrupt;
    InterruptOnly(Send(w), true);
  }

  /** The history survives the transmit alarm exactly if its deadline does not wrap. */
  lemma TxAlarmHistory(w: World)
    requires Possible(w, TxDue) && w.chip.inTx <= DR_WRITTEN && History(w, w.epoch + w.now) && w.chip.ticks >= 1
    ensures History(TxAlarm(w), w.epoch + w.now) <==> LineLasts(w)
  {
    hide TxAlarm, Survivors, Alternates, Bytes, Spaced;
    TxAlarmFacts(w);
    if w.chip.fd && w.chip.inTx == DR_WRITTEN {
      SendHistory(w, w.epoch + w.now);
      LateWrap(w.now + w.chip.ticks);
    }
  }

  lemma LateWrap(clk: int)
    requires 0 <= clk
    ensures Wrap(clk) >= clk <==> clk <= NONE
  {
  }

  lemma LoadHistory(w: World, m: Module, up: bool, t: int)
    ensures History(Load(w, m, up), t)
  {
    hide History, Begin, LoadAlarms, LoadBytes, SetTicks, LoadLine;
    if m.Cut? {
      BeginHistory(LoadBytes(LoadQuiet(w), m.bytes), t);
    } else {
      var s := m.data;
      var u := SetTicks(LoadLine(Loaded(w, s), up));
      BeginHistory(LoadAlarms(u.(chip := u.chip.(inTx := s.inTx)), s), t);
    }
  }

  lemma ResetHistory(w: World, t: int)
    ensures History(Reset(w), t)
  {
    hide History, Begin, SetTicks;
    var v := SetTicks(w.(chip := w.chip.(rts := false, dtr := false, cmd := 0, ctrl := 0, ectrl := 0)));
    var u := v.(chip := v.chip.(status := Unpack(0x10), inTx := NO_TRANSMIT, fd := false));
    BeginHistory(Interrupt(UnsetRx(UnsetTx(u)), false), t);
  }

  lemma ReadUnheard(w: World, addr: int, dsr: bool)
    ensures Unheard(w, Read(w, addr, dsr).0)
  {
    hide StatusByte, U8, RefreshStatus, Interrupt, Unheard, Register;
    var r := Register(w.config, addr);
    if r == 1 {
      var v := RefreshStatus(w, dsr);
      SmallUnheard(w, dsr);
      SmallUnheard(v, dsr);
      var u := Interrupt(v, false);
      LastReadUnheard(u, StatusByte(v.chip.status, v.chip.irq));
      UnheardTwice(w, v, u);
      UnheardTwice(w, u, Read(w, addr, dsr).0);
    } else {
      LastReadUnheard(w, w.chip.cmd);
      LastReadUnheard(w, w.chip.ctrl);
      DataUnheard(w);
    }
  }

  lemma LastReadUnheard(w: World, c: Byte)
    ensures Unheard(w, w) && Unheard(w, w.(chip := w.chip.(lastRead := c)))
  {
  }

  lemma DataUnheard(w: World)
    ensures Unheard(w, w.(chip := w.chip.(status := w.chip.status.(full := false), lastRead := w.chip.rxdata)))
  {
  }

  lemma UnheardTwice(w: World, v: World, u: World)
    requires Unheard(w, v) && Unheard(v, u)
    ensures Unheard(w, u)
  {
  }

  lemma SmallUnheard(w: World, dsr: bool)
    ensures Unheard(w, RefreshStatus(w, dsr)) && Unheard(w, Interrupt(w, false))
  {
  }

  lemma ReceiveUnheard(w: World, received: Option<Byte>)
    ensures Unheard(w, RxAlarm(w, received))
  {
    hide Wrap, Bit1;
  }

  lemma SaveUnheard(w: World, dsr: bool)
    ensures Unheard(w, Save(w, dsr).0)
  {
    hide Wrap, StatusByte;
  }

  lemma ShiftHistory(w: World, sub: Clock)
    requires Possible(w, ShiftClock(sub)) && History(w, w.epoch + w.now)
    ensures History(Shift(w, sub), w.epoch + w.now) && w.epoch + w.now == Shift(w, sub).epoch + Shift(w, sub).now
  {
    hide Survivors, Alternates, Bytes, Spaced;
  }

  lemma RmwHistory(w: World, addr: int, byte: Byte, up: bool, t: int)
    requires Mirror(w) && Sane(w) && Transmitter(w) && History(w, t)
    ensures History(StoreRmw(w, addr, byte, up), t)
  {
    hide Store, Mirror, Sane, Transmitter, Latch, Wrap;
    var v := w.(now := Wrap(w.now - 1));
    NowFree(w, v, t);
    StoreHistory(v, addr, w.chip.lastRead, up, t);
    StoreKeeps(v, addr, w.chip.lastRead, up);
    var u := Store(v, addr, w.chip.lastRead, up);
    var x := u.(now := Wrap(u.now + 1));
    NowFree(u, x, t);
    StoreHistory(x, addr, byte, up, t);
  }

  /** The invariants do not depend on the clock itself. */
  lemma NowFree(w: World, v: World, t: int)
    requires v == w.(now := v.now)
    ensures Mirror(w) == Mirror(v) && Sane(w) == Sane(v) && Transmitter(w) == Transmitter(v) && Latch(w) == Latch(v)
    ensures Transmitter(w) ==> w.chip.inTx <= DR_WRITTEN
    ensures History(w, t) == History(v, t)
  {
  }

  lemma LaterHistory(w: World, t: int, u: int)
    requires t <= u && History(w, t)
    ensures History(w, u)
  {
  }

  /** The history survives every step but a transmission whose deadline wraps; absolute time is the clock plus
      everything that shifts took off it. */
  lemma StepHistory(w: World, e: Event)
    requires Mirror(w) && Sane(w) && Transmitter(w) && Possible(w, e)
    requires History(w, w.epoch + w.now)
    ensures History(Step(w, e), Step(w, e).epoch + Step(w, e).now) <==> (e.TxDue? ==> LineLasts(w))
  {
    hide History, Mirror, Sane, Transmitter, Store, StoreRmw, TxAlarm, RxAlarm, Reset, Load, Read, Save, Shift;
    var t := w.epoch + w.now;
    NowFree(w, w, t);
    StepKeeps(w, e);
    SaneTicks(w);
    match e
    case StoreAt(addr, byte, up) => StoreHistory(w, addr, byte, up, t);
    case StoreRmwAt(addr, byte, up) => RmwHistory(w, addr, byte, up, t);
    case TxDue => TxAlarmHistory(w);
    case ResetLine => ResetHistory(w, t);
    case ShiftClock(sub) => ShiftHistory(w, sub);
    case LoadModule(m, up) => LoadHistory(w, m, up, t);
    case Pass(n) =>
      LaterHistory(w, t, t + n);
      NowFree(w, w.(now := w.now + n), t + n);
    case _ => QuietHistory(w, e, t);
  }

  lemma SaneTicks(w: World)
    requires Sane(w)
    ensures w.chip.ticks >= 1
  {
  }

  lemma QuietHistory(w: World, e: Event, t: int)
    requires (e.ReadAt? || e.RxDue? || e.SaveModule?) && Possible(w, e) && History(w, t)
    ensures History(Step(w, e), t)
  {
    hide RxAlarm, Read, Save, History, Unheard;
    UnheardHistory(w, Step(w, e), t);
    if e.ReadAt? {
      ReadUnheard(w, e.addr, e.dsr);
    } else if e.RxDue? {
      ReceiveUnheard(w, e.received);
    } else {
      SaveUnheard(w, e.dsr);
    }
  }

  // ---- timing ----

  /** Any machine of 32915 cycles per second or more gives a character at least one tick, and no more than the 1.2
      seconds of twelve bits at 10 bps. */
  lemma TicksRange(c: Config, cmd: Byte, ctrl: Byte, ectrl: Byte)
    requires c.cyclesPerSecond >= 32915
    ensures 1 <= CharTicks(c, cmd, ctrl, ectrl) <= 6 * c.cyclesPerSecond / 5
  {
    hide Bps, FrameBits;
    BpsRange(c.mode, ctrl, ectrl);
    var cps, bps, bits := c.cyclesPerSecond as real, Bps(c.mode, ctrl, ectrl), FrameBits(cmd, ctrl) as real;
    RatioRange(cps, bps, bits);
    FloorRange(cps / bps * bits, c.cyclesPerSecond);
  }

  lemma RatioRange(cps: real, bps: real, bits: real)
    requires 10.0 <= bps <= 230400.0 && 7.0 <= bits <= 12.0 && cps >= 32915.0
    ensures 1.0 <= cps / bps * bits <= cps * 1.2
  {
    var q := cps / bps;
    assert q * bps == cps;
    assert q > 0.0;
    assert q * 10.0 <= q * bps <= q * 230400.0;
    assert q * 7.0 <= q * bits <= q * 12.0;
  }

  lemma FloorRange(x: real, n: nat)
    requires 1.0 <= x <= n as real * 1.2
    ensures 1 <= x.Floor <= 6 * n / 5
  {
    assert x.Floor as real * 5.0 <= (6 * n) as real;
    assert 5 * x.Floor <= 6 * n;
  }

  // ---- snapshots ----

  /** The bits of the status byte are the flags. */
  lemma PackBits(s: Sr)
    ensures Unpack(Pack(s)) == s
  {
    hide Bit0, Bit1, Bit2, Bit3, Bit4, Bit5, Bit6, Bit7;
    ByteBits(s.top, s.dcd, s.dsr, s.empty, s.full, s.overrun, s.framing, s.parity);
  }

  /** A delay taken modulo 2^32 and added to a clock. */
  lemma Delay(clk: Clock, now: Clock)
    ensures Wrap(now + Wrap(clk - now)) == clk
    ensures Wrap(clk - now) == 0 <==> clk == now
  {
  }

  /** The wait for an alarm, as the snapshot counts it. */
  function Wait(alarm: Option<Clock>, now: Clock): Option<Clock> {
    if alarm.None? then None else Some(Wrap(alarm.value - now))
  }

  /** What is left of a wait that is written as a number, 0 standing for no alarm. */
  function Heard(wait: Option<Clock>): Option<Clock> {
    if wait == Some(0) then None else wait
  }

  /** The reception alarm after a load: modules of old versions take the transmit deadline for it, if there is one. */
  predicate RxRestored(s: Snapshot, wait: Option<Clock>) {
    if s.aar.Some? then wait == Heard(s.aar) else s.act != 0 ==> wait == Some(s.act)
  }

  lemma LoadAlarmsWait(w: World, s: Snapshot)
    requires w.tx.None?
    ensures var v := LoadAlarms(w, s);
            Wait(v.tx, w.now) == Heard(Some(s.act)) && RxRestored(s, Wait(v.rx, w.now))
  {
    hide Wrap;
    WaitBack(w.now, s.act);
    if s.aar.Some? {
      WaitBack(w.now, s.aar.value);
    }
  }

  /** w and v differ in nothing but the alarms and the chip's record of them. */
  predicate AlarmsOnly(w: World, v: World) {
    v == w.(chip := v.chip, tx := v.tx, rx := v.rx)
    && v.chip == w.chip.(clkTx := v.chip.clkTx, clkRx := v.chip.clkRx, activeTx := v.chip.activeTx,
                         activeRx := v.chip.activeRx)
  }

  lemma SettersOnly(w: World, d: int)
    ensures AlarmsOnly(w, SetTx(w, d)) && AlarmsOnly(w, SetRxAt(w, d)) && AlarmsOnly(w, UnsetRx(w))
  {
    hide Wrap;
  }

  lemma OnlyTwice(w: World, v: World, u: World)
    requires AlarmsOnly(w, v) && AlarmsOnly(v, u)
    ensures AlarmsOnly(w, u)
  {
  }

  lemma LoadAlarmsOnly(w: World, s: Snapshot)
    ensures AlarmsOnly(w, LoadAlarms(w, s))
  {
    hide SetTx, SetRxAt, UnsetRx, AlarmsOnly;
    SettersOnly(w, s.act);
    SettersOnly(SetTx(w, s.act), s.act);
    OnlyTwice(w, SetTx(w, s.act), SetRxAt(SetTx(w, s.act), s.act));
    var v := if s.act == 0 then w else SetRxAt(SetTx(w, s.act), s.act);
    assert AlarmsOnly(w, w) by { OnlySame(w); }
    SettersOnly(v, if s.aar.Some? then s.aar.value else 0);
    OnlyTwice(w, v, LoadAlarms(w, s));
  }

  lemma OnlySame(w: World)
    ensures AlarmsOnly(w, w)
  {
  }

  lemma WaitBack(now: Clock, d: Clock)
    ensures Wrap(Wrap(now + d) - now) == d
  {
  }

  /** LoadLine touches the line, its handshake, the timing and the RX alarm only. */
  lemma LoadLineOnly(w: World, up: bool)
    requires Quiet(w)
    ensures var v := LoadLine(w, up);
            v == w.(chip := v.chip, rx := v.rx)
            && v.chip == w.chip.(fd := v.chip.fd, ticks := v.chip.ticks, ticksRx := v.chip.ticksRx,
                                 clkRx := v.chip.clkRx, activeRx := v.chip.activeRx, rts := v.chip.rts, dtr := v.chip.dtr)
  {
    hide Handshake, DtrOn;
    HandshakeOnly(w.(chip := w.chip.(fd := up)));
  }

  /** What a snapshot restores, whichever way the serial line goes in between. */
  lemma LoadRestores(w: World, s: Snapshot, up: bool)
    requires Sane(w)
    ensures var v := Load(w, Whole(s), up);
            v.chip.txdata == s.txdata && v.chip.rxdata == s.rxdata && v.chip.cmd == s.cmd && v.chip.ctrl == s.ctrl
            && v.chip.inTx == s.inTx && v.chip.irq == Unpack(s.sr).top && v.chip.status == Unpack(s.sr).(top := false)
            && Wait(v.tx, w.now) == Heard(Some(s.act)) && RxRestored(s, Wait(v.rx, w.now)) && v.now == w.now
  {
    hide LoadLine, SetTicks, LoadAlarms, Unpack, Wait, Heard, RxRestored;
    LoadedQuiet(w, s);
    LoadLineOnly(Loaded(w, s), up);
    var u := LoadLine(Loaded(w, s), up);
    TicksOnly(u);
    var t := SetTicks(u);
    LoadAlarmsOnly(t.(chip := t.chip.(inTx := s.inTx)), s);
    LoadAlarmsWait(t.(chip := t.chip.(inTx := s.inTx)), s);
  }

  /** The extended control register is not in the module: a chip keeps its own, and the character time is computed
      from it. */
  lemma LoadTiming(w: World, s: Snapshot, up: bool)
    requires Sane(w)
    ensures var v := Load(w, Whole(s), up);
            v.chip.ectrl == w.chip.ectrl && v.chip.ticks == CharTicks(w.config, s.cmd, s.ctrl, w.chip.ectrl)
            && v.chip.ticksRx == v.chip.ticks * 5 / 4
  {
    hide LoadLine, LoadAlarms, Unpack, CharTicks, Wrap;
    LoadedQuiet(w, s);
    LoadLineOnly(Loaded(w, s), up);
    var u := LoadLine(Loaded(w, s), up);
    var t := SetTicks(u);
    LoadAlarmsOnly(t.(chip := t.chip.(inTx := s.inTx)), s);
  }

  /** The character time is that of the registers. */
  predicate UpToDate(w: World) {
    w.chip.ticks == CharTicks(w.config, w.chip.cmd, w.chip.ctrl, w.chip.ectrl) && w.chip.ticksRx == w.chip.ticks * 5 / 4
  }

  /** The extended rates are so far apart that they give different character times. */
  lemma RatesApart(c: Config, cmd: Byte, ctrl: Byte, e: Byte, f: Byte)
    requires c.cyclesPerSecond >= 32915
    ensures CharTicks(c, cmd, ctrl, e) == CharTicks(c, cmd, ctrl, f)
            <==> c.mode != Turbo232 || ctrl % 16 != 0 || e % 4 == f % 4
  {
    hide FrameBits, CharTicks, Doubled;
    if c.mode == Turbo232 && ctrl % 16 == 0 {
      var n := c.cyclesPerSecond as real / 230400.0 * FrameBits(cmd, ctrl) as real;
      RatioRange(c.cyclesPerSecond as real, 230400.0, FrameBits(cmd, ctrl) as real);
      ExtendedTicks(c, cmd, ctrl, e);
      ExtendedTicks(c, cmd, ctrl, f);
      DoublesApart(n, e % 4, f % 4);
    } else {
      SameRate(c, cmd, ctrl, e, f);
    }
  }

  lemma SameRate(c: Config, cmd: Byte, ctrl: Byte, e: Byte, f: Byte)
    requires c.mode != Turbo232 || ctrl % 16 != 0
    ensures CharTicks(c, cmd, ctrl, e) == CharTicks(c, cmd, ctrl, f)
  {
    hide FrameBits;
    assert Bps(c.mode, ctrl, e) == Bps(c.mode, ctrl, f);
    hide Bps;
  }

  function Doubled(x: real, k: int): real {
    if k == 0 then x else if k == 1 then 2.0 * x else if k == 2 then 4.0 * x else 8.0 * x
  }

  lemma ExtendedTicks(c: Config, cmd: Byte, ctrl: Byte, e: Byte)
    requires c.mode == Turbo232 && ctrl % 16 == 0
    ensures CharTicks(c, cmd, ctrl, e)
         == Doubled(c.cyclesPerSecond as real / 230400.0 * FrameBits(cmd, ctrl) as real, e % 4).Floor
  {
    hide FrameBits;
    var cps, bits := c.cyclesPerSecond as real, FrameBits(cmd, ctrl) as real;
    assert cps / 115200.0 == 2.0 * (cps / 230400.0);
    assert cps / 57600.0 == 4.0 * (cps / 230400.0);
    assert cps / 28800.0 == 8.0 * (cps / 230400.0);
  }

  lemma DoublesApart(x: real, j: int, k: int)
    requires x >= 1.0 && 0 <= j <= 3 && 0 <= k <= 3
    ensures Doubled(x, j).Floor == Doubled(x, k).Floor <==> j == k
  {
    assert x.Floor < (2.0 * x).Floor < (4.0 * x).Floor < (8.0 * x).Floor;
  }

  /** So the character time of a chip comes back, in a chip of the same kind, exactly if the rate does not depend on the
      extended control register or both chips have the same rate in it. */
  lemma TimingRoundTrip(w: World, dsr: bool, x: World, up: bool)
    requires UpToDate(w) && Sane(x) && x.config == w.config
    ensures var v := Load(x, Whole(Save(w, dsr).1), up);
            v.chip.ectrl == x.chip.ectrl && UpToDate(v)
            && (v.chip.ticks == w.chip.ticks && v.chip.ticksRx == w.chip.ticksRx
                <==> w.config.mode != Turbo232 || w.chip.ctrl % 16 != 0 || x.chip.ectrl % 4 == w.chip.ectrl % 4)
  {
    hide Load, CharTicks, Wrap, StatusByte, Unpack;
    var s := Save(w, dsr).1;
    LoadTiming(x, s, up);
    LoadRestores(x, s, up);
    LoadConfig(x, s, up);
    RatesApart(w.config, w.chip.cmd, w.chip.ctrl, w.chip.ectrl, x.chip.ectrl);
  }

  lemma LoadConfig(w: World, s: Snapshot, up: bool)
    requires Sane(w)
    ensures Load(w, Whole(s), up).config == w.config
  {
    hide LoadLine, LoadAlarms, SetTicks, Unpack;
    LoadedQuiet(w, s);
    LoadLineOnly(Loaded(w, s), up);
    var u := LoadLine(Loaded(w, s), up);
    TicksOnly(u);
    var t := SetTicks(u);
    LoadAlarmsOnly(t.(chip := t.chip.(inTx := s.inTx)), s);
  }

  /** Save and load, into any chip at any time: the registers that the module holds, transmitter state, interrupt and
      status (with DSR and DCD refreshed) are back, and both alarms are as far away as they were.  Only an alarm that is
      due at the very moment of the snapshot is lost. */
  lemma SnapshotRoundTrip(w: World, dsr: bool, x: World, up: bool)
    requires Mirror(w) && Sane(w) && Sane(x)
    ensures var v := Load(x, Whole(Save(w, dsr).1), up);
            v.chip.txdata == w.chip.txdata && v.chip.rxdata == w.chip.rxdata && v.chip.cmd == w.chip.cmd
            && v.chip.ctrl == w.chip.ctrl && v.chip.inTx == w.chip.inTx && v.chip.irq == w.chip.irq
            && v.chip.status == w.chip.status.(dsr := dsr, dcd := false)
            && (Wait(v.tx, v.now) == Wait(w.tx, w.now) <==> w.tx != Some(w.now))
            && (Wait(v.rx, v.now) == Wait(w.rx, w.now) <==> w.rx != Some(w.now))
  {
    hide Load, Pack, Unpack, Wrap;
    var s := Save(w, dsr).1;
    LoadRestores(x, s, up);
    PackBits(w.chip.status.(dsr := dsr, dcd := false, top := w.chip.irq));
    Delay(w.chip.clkTx, w.now);
    Delay(w.chip.clkRx, w.now);
  }

  /** A snapshot that a good chip can have written. */
  predicate Writable(s: Snapshot) {
    s.inTx <= DR_WRITTEN && (s.act != 0 ==> s.inTx != NO_TRANSMIT) && (Unpack(s.sr).empty ==> s.inTx != DR_WRITTEN)
  }

  lemma SaveWritable(w: World, dsr: bool)
    requires Mirror(w) && Transmitter(w)
    ensures Writable(Save(w, dsr).1)
  {
    hide Pack, Unpack, Wrap;
    PackBits(w.chip.status.(dsr := dsr, dcd := false, top := w.chip.status.top || w.chip.irq));
  }

  /** The transmitter is as good as the module, old or new. */
  lemma LoadTransmitter(w: World, s: Snapshot, up: bool)
    requires Sane(w)
    ensures Transmitter(Load(w, Whole(s), up)) <==> Writable(s)
  {
    hide Load, Unpack, Wrap;
    LoadRestores(w, s, up);
  }

  /** A module that ends too early may bring along an empty transmitter while a byte waits in it. */
  lemma CutTransmitter(w: World, bytes: seq<Byte>, up: bool)
    requires Mirror(w) && Transmitter(w)
    ensures Transmitter(Load(w, Cut(bytes), up))
            <==> (|bytes| > 2 && Unpack(bytes[2]).empty ==> w.chip.inTx != DR_WRITTEN)
  {
    hide Unpack;
  }

  // ---- whole runs ----

  ghost predicate Good(w: World) {
    Mirror(w) && Sane(w) && Transmitter(w) && Latch(w) && History(w, w.epoch + w.now)
  }

  /** Whole modules come from good chips, modules that end too early do no harm, and no byte is sent so late that its
      deadline wraps. */
  predicate Harmless(w: World, e: Event) {
    match e
    case TxDue => LineLasts(w)
    case LoadModule(Whole(s), _) => Writable(s)
    case LoadModule(Cut(bytes), _) =>
      CutSane(w.chip.fd, bytes) && (w.config.wired ==> !w.chip.irq)
      && (|bytes| > 2 && Unpack(bytes[2]).empty ==> w.chip.inTx != DR_WRITTEN)
    case _ => true
  }

  /** One step keeps all invariants exactly if it is harmless. */
  lemma GoodStep(w: World, e: Event)
    requires Good(w) && Possible(w, e)
    ensures Good(Step(w, e)) <==> Harmless(w, e)
  {
    hide Step, History, Mirror, Latch, Transmitter, Writable, Load, Unpack, CutSane, LineLasts;
    StepKeeps(w, e);
    StepHistory(w, e);
    if e.LoadModule? {
      StepLoad(w, e);
      LoadKeeps(w, e.m, e.up);
      if e.m.Cut? {
        CutTransmitter(w, e.m.bytes, e.up);
      } else {
        LoadTransmitter(w, e.m.data, e.up);
      }
    }
  }

  lemma StepLoad(w: World, e: Event)
    requires Possible(w, e) && e.LoadModule?
    ensures Step(w, e) == Load(w, e.m, e.up)
  {
  }

  /** Every event of the run is possible when it happens. */
  predicate Plays(w: World, es: seq<Event>)
    decreases |es|
  {
    es == [] || (Possible(w, es[0]) && Plays(Step(w, es[0]), es[1..]))
  }

  /** And harmless. */
  predicate AllHarmless(w: World, es: seq<Event>)
    requires Plays(w, es)
    decreases |es|
  {
    es == [] || (Harmless(w, es[0]) && AllHarmless(Step(w, es[0]), es[1..]))
  }

  /** All states of the run are good. */
  ghost predicate AllGood(w: World, es: seq<Event>)
    requires Plays(w, es)
    decreases |es|
  {
    Good(w) && (es == [] || AllGood(Step(w, es[0]), es[1..]))
  }

  function Run(w: World, es: seq<Event>): World
    requires Plays(w, es)
    decreases |es|
  {
    if es == [] then w else Run(Step(w, es[0]), es[1..])
  }

  /** From a reset on, in every run: the chip's record of its alarms is the scheduler's; the transmit data register
      is never called empty while a byte waits in it; the interrupt line follows the latch; and while the line is
      open the bytes sent are, in order, the bytes written except those overwritten before the transmitter took
      them, each sent when the one before has left the line.  This goes for all states exactly if every event is
      harmless. */
  lemma {:induction false} GoodRun(w: World, es: seq<Event>)
    requires Good(w) && Plays(w, es)
    ensures AllGood(w, es) <==> AllHarmless(w, es)
    ensures AllGood(w, es) ==> Good(Run(w, es))
    decreases |es|
  {
    hide Good, Step, Possible, Harmless;
    if es != [] {
      GoodStep(w, es[0]);
      if Good(Step(w, es[0])) {
        GoodRun(Step(w, es[0]), es[1..]);
      } else {
        NotGood(Step(w, es[0]), es[1..]);
      }
    }
  }

  lemma NotGood(w: World, es: seq<Event>)
    requires Plays(w, es) && !Good(w)
    ensures !AllGood(w, es)
  {
  }

  lemma ResetGood(w: World)
    requires w.config.cyclesPerSecond >= 32915
    ensures Good(Reset(w))
  {
    hide Reset;
    ResetEstablishes(w);
    ResetHistory(w, w.epoch + w.now);
  }
}
