/** What the ACIA's registers and its receiver do for a program: the bytes that arrive are those that are read, and every
    register, flag and interrupt means what the chip's users expect of it. */
module AciaLaws {
  import opened Bits
  import opened Wrappers
  import opened AlarmQueue
  import opened AciaSpec
  import opened AciaProperties

  predicate IsData(w: World, addr: int) {
    (if w.config.mode == Turbo232 then addr % 8 else addr % 4) == 0
  }

  predicate IsStatus(w: World, addr: int) {
    (if w.config.mode == Turbo232 then addr % 8 else addr % 4) == 1
  }

  // ---- one reception ----

  /** A byte that arrives on the open line is what the data register reads next; the receiver is full, overrun is set
      exactly if it was full before, and the interrupt is latched exactly if bit 1 of the command register is clear. */
  lemma ReceptionMeans(w: World, b: Byte, addr: int, dsr: bool)
    requires w.chip.fd && IsData(w, addr)
    ensures var v := RxAlarm(w, Some(b));
            && Read(v, addr, dsr).1 == b && v.chip.status.full
            && v.chip.status.overrun == (w.chip.status.overrun || w.chip.status.full)
            && v.chip.irq == (w.chip.irq || w.chip.cmd % 4 < 2)
            && !Read(v, addr, dsr).0.chip.status.full
            && Read(v, addr, dsr).0.chip.status.overrun == v.chip.status.overrun
  {
    ReceptionReceiver(w, Some(b));
    ReadReceiver(RxAlarm(w, Some(b)), addr, dsr);
    hide RxAlarm, Read;
  }

  /** On a closed line, or when nothing arrives, the receiver stays as it is. */
  lemma NoReceptionMeans(w: World, received: Option<Byte>)
    requires !w.chip.fd || received.None?
    ensures SameReceiver(w, RxAlarm(w, received)) && RxAlarm(w, received).chip.irq == w.chip.irq
  {
    hide Wrap;
  }

  /** The line is asked again a reception time later, and a new rate counts from now. */
  lemma ReceptionPeriod(w: World, received: Option<Byte>)
    ensures RxAlarm(w, received).rx == Some((w.now + w.chip.ticksRx) % 0x1_0000_0000)
    ensures var v := SetTicks(w);
            v.rx == (if w.chip.activeRx then Some((w.now + v.chip.ticksRx) % 0x1_0000_0000) else w.rx)
  {
    hide Receive, CharTicks;
    if received.Some? {
      ReceiveTime(w, received.value);
    }
  }

  lemma ReceiveTime(w: World, b: Byte)
    ensures Receive(w, b).now == w.now && Receive(w, b).chip.ticksRx == w.chip.ticksRx
  {
  }

  /** What arrives in an event. */
  function Arrived(w: World, e: Event): seq<Byte> {
    if e.RxDue? && e.received.Some? && w.chip.fd then [e.received.value] else []
  }

  /** What a program gets that reads the data register when the status says full. */
  function Taken(w: World, e: Event): seq<Byte> {
    if e.ReadAt? && IsData(w, e.addr) && w.chip.status.full then [Read(w, e.addr, e.dsr).1] else []
  }

  /** The byte that waits to be read. */
  function Held(w: World): seq<Byte> {
    if w.chip.status.full then [w.chip.rxdata] else []
  }

  predicate SameReceiver(w: World, v: World) {
    v.chip.rxdata == w.chip.rxdata && v.chip.status.full == w.chip.status.full
    && v.chip.status.overrun == w.chip.status.overrun && v.config == w.config
  }

  /** Programmed resets, resets and snapshots clear or replace the receiver's flags. */
  predicate Resets(w: World, e: Event) {
    e.ResetLine? || e.LoadModule? || (e.StoreAt? && IsStatus(w, e.addr)) || (e.StoreRmwAt? && IsStatus(w, e.addr))
  }

  // ---- every other event leaves the receiver alone ----

  lemma TicksReceiver(w: World)
    ensures SameReceiver(w, SetTicks(w)) && SetTicks(w).chip.irq == w.chip.irq
  {
    hide CharTicks, Wrap;
  }

  lemma RequestReceiver(w: World)
    ensures SameReceiver(w, RequestToSend(w)) && RequestToSend(w).chip.irq == w.chip.irq
  {
    hide SetTicks;
    TicksReceiver(w.(chip := w.chip.(rts := true, activeRx := true)));
  }

  lemma HandshakeReceiver(w: World)
    ensures SameReceiver(w, Handshake(w)) && Handshake(w).chip.irq == w.chip.irq
  {
    hide RequestToSend;
    RequestReceiver(w);
  }

  lemma StatusReceiver(w: World)
    ensures var v := StoreStatus(w);
            v.config == w.config && v.chip.rxdata == w.chip.rxdata && v.chip.status.full == w.chip.status.full
            && !v.chip.status.overrun && !v.chip.irq
  {
    hide Handshake;
    var r := w.(chip := w.chip.(fd := false, status := w.chip.status.(overrun := false), cmd := w.chip.cmd / 32 * 32,
                                inTx := NO_TRANSMIT));
    HandshakeReceiver(UnsetTx(Interrupt(r, false)));
  }

  lemma CommandReceiver(w: World, byte: Byte, up: bool)
    ensures SameReceiver(w, StoreCommand(w, byte, up)) && StoreCommand(w, byte, up).chip.irq == w.chip.irq
  {
    hide Handshake, SetTicks, DtrOn, Begin, StoreCommand, SameReceiver;
    var c := w.(chip := w.chip.(cmd := byte));
    HandshakeReceiver(c);
    LineReceiver(w, byte, up, Handshake(c));
    assert SameReceiver(w, c) by { NewCommand(w, byte); }
    SameTwice(w, c, Handshake(c));
    SameTwice(w, Handshake(c), StoreCommand(w, byte, up));
  }

  lemma NewCommand(w: World, byte: Byte)
    ensures SameReceiver(w, w.(chip := w.chip.(cmd := byte)))
  {
  }

  lemma LineReceiver(w: World, byte: Byte, up: bool, h: World)
    requires h == Handshake(w.(chip := w.chip.(cmd := byte)))
    ensures SameReceiver(h, StoreCommand(w, byte, up)) && StoreCommand(w, byte, up).chip.irq == h.chip.irq
  {
    hide Handshake, SetTicks, DtrOn, Begin;
    var o := h.(chip := h.chip.(fd := up, activeRx := true));
    TicksReceiver(o);
    BeginOnly(SetTicks(o));
    BeginOnly(UnsetTx(h).(chip := UnsetTx(h).chip.(fd := false)));
  }

  lemma SameTwice(w: World, v: World, u: World)
    requires SameReceiver(w, v) && SameReceiver(v, u)
    ensures SameReceiver(w, u)
  {
  }

  lemma DataReceiver(w: World, byte: Byte)
    ensures SameReceiver(w, StoreData(w, byte)) && StoreData(w, byte).chip.irq == w.chip.irq
  {
    hide Wrap, DtrOn;
  }

  lemma StoreReceiver(w: World, addr: int, byte: Byte, up: bool)
    ensures var v := Store(w, addr, byte, up);
            v.config == w.config && v.chip.rxdata == w.chip.rxdata && v.chip.status.full == w.chip.status.full
            && (if IsStatus(w, addr) then !v.chip.status.overrun && !v.chip.irq
                else v.chip.status.overrun == w.chip.status.overrun && v.chip.irq == w.chip.irq)
  {
    hide SetTicks, StoreData, StoreStatus, StoreCommand;
    DataReceiver(w, byte);
    StatusReceiver(w);
    CommandReceiver(w, byte, up);
    TicksReceiver(w.(chip := w.chip.(ctrl := byte)));
    TicksReceiver(w.(chip := w.chip.(ectrl := byte)));
  }

  lemma RmwReceiver(w: World, addr: int, byte: Byte, up: bool)
    ensures var v := StoreRmw(w, addr, byte, up);
            v.config == w.config && v.chip.rxdata == w.chip.rxdata && v.chip.status.full == w.chip.status.full
            && (if IsStatus(w, addr) then !v.chip.status.overrun && !v.chip.irq
                else v.chip.status.overrun == w.chip.status.overrun && v.chip.irq == w.chip.irq)
  {
    hide Store, Wrap;
    var u := w.(now := Wrap(w.now - 1));
    StoreReceiver(u, addr, w.chip.lastRead, up);
    var v := Store(u, addr, w.chip.lastRead, up);
    StoreReceiver(v.(now := Wrap(v.now + 1)), addr, byte, up);
  }

  lemma TransmitReceiver(w: World)
    ensures var v := TxAlarm(w);
            SameReceiver(w, v) && v.chip.irq == (w.chip.irq || (w.chip.inTx == 2 && w.chip.fd && w.chip.cmd / 4 % 4 == 1))
  {
    hide Wrap;
  }

  lemma ReadReceiver(w: World, addr: int, dsr: bool)
    ensures var v, b := Read(w, addr, dsr).0, Read(w, addr, dsr).1;
            v.config == w.config && v.chip.rxdata == w.chip.rxdata && v.chip.status.overrun == w.chip.status.overrun
            && v.chip.status.full == (w.chip.status.full && !IsData(w, addr)) && (IsData(w, addr) ==> b == w.chip.rxdata)
            && v.chip.irq == (w.chip.irq && !IsStatus(w, addr))
  {
    if IsData(w, addr) {
      ReadData(w, addr, dsr);
    } else if IsStatus(w, addr) {
      ReadStatus(w, addr, dsr);
    } else {
      ReadOther(w, addr, dsr);
    }
    hide Read;
  }

  lemma ReadData(w: World, addr: int, dsr: bool)
    requires IsData(w, addr)
    ensures Read(w, addr, dsr)
         == (w.(chip := w.chip.(status := w.chip.status.(full := false), lastRead := w.chip.rxdata)), w.chip.rxdata)
  {
    hide RefreshStatus, Interrupt, StatusByte, U8;
  }

  lemma ReadStatus(w: World, addr: int, dsr: bool)
    requires IsStatus(w, addr)
    ensures SameReceiver(w, Read(w, addr, dsr).0) && !Read(w, addr, dsr).0.chip.irq
  {
    hide RefreshStatus, Interrupt, StatusByte, U8;
    RefreshReceiver(w, dsr);
    InterruptOnly(RefreshStatus(w, dsr), false);
  }

  lemma ReadOther(w: World, addr: int, dsr: bool)
    requires !IsStatus(w, addr) && !IsData(w, addr)
    ensures SameReceiver(w, Read(w, addr, dsr).0) && Read(w, addr, dsr).0.chip.irq == w.chip.irq
  {
    var r := Register(w.config, addr);
    assert r != 0 && r != 1;
    hide RefreshStatus, Interrupt, StatusByte, U8, Register;
    if r == 2 {
      LastRead(w, w.chip.cmd);
    } else if r == 3 {
      LastRead(w, w.chip.ctrl);
    } else {
      assert Read(w, addr, dsr).0 == w;
    }
  }

  lemma LastRead(w: World, c: Byte)
    ensures SameReceiver(w, w.(chip := w.chip.(lastRead := c))) && w.(chip := w.chip.(lastRead := c)).chip.irq == w.chip.irq
  {
  }

  lemma RefreshReceiver(w: World, dsr: bool)
    ensures SameReceiver(w, RefreshStatus(w, dsr))
  {
  }

  lemma ReceptionReceiver(w: World, received: Option<Byte>)
    ensures var v, b := RxAlarm(w, received), Arrived(w, RxDue(received));
            v.config == w.config
            && (b == [] ==> SameReceiver(w, v) && v.chip.irq == w.chip.irq)
            && (b != [] ==> v.chip.rxdata == b[0] && v.chip.status.full && v.chip.irq == (w.chip.irq || w.chip.cmd % 4 < 2)
                            && v.chip.status.overrun == (w.chip.status.overrun || w.chip.status.full))
  {
    hide Wrap;
  }

  /** What one event does to the receiver. */
  lemma StepReceiver(w: World, e: Event)
    requires Possible(w, e)
    ensures var v, b, t := Step(w, e), Arrived(w, e), Taken(w, e);
            !Resets(w, e) ==>
              && v.config == w.config
              && v.chip.rxdata == (if b != [] then b[0] else w.chip.rxdata)
              && v.chip.status.full == (b != [] || (w.chip.status.full && t == []))
              && v.chip.status.overrun == (w.chip.status.overrun || (b != [] && w.chip.status.full))
              && (t != [] ==> t == [w.chip.rxdata])
  {
    hide Store, StoreRmw, Read, TxAlarm, RxAlarm, Reset, Load, Wrap, Possible;
    match e
    case StoreAt(addr, byte, up) => StoreReceiver(w, addr, byte, up);
    case StoreRmwAt(addr, byte, up) => RmwReceiver(w, addr, byte, up);
    case ReadAt(addr, dsr) => ReadReceiver(w, addr, dsr);
    case TxDue => TransmitReceiver(w);
    case RxDue(received) => ReceptionReceiver(w, received);
    case _ =>
  }

  // ---- runs ----

  /** No event of the run resets the receiver. */
  predicate Undisturbed(w: World, es: seq<Event>)
    requires Plays(w, es)
    decreases |es|
  {
    es == [] || (!Resets(w, es[0]) && Undisturbed(Step(w, es[0]), es[1..]))
  }

  function Arrivals(w: World, es: seq<Event>): seq<Byte>
    requires Plays(w, es)
    decreases |es|
  {
    if es == [] then [] else Arrived(w, es[0]) + Arrivals(Step(w, es[0]), es[1..])
  }

  function Takings(w: World, es: seq<Event>): seq<Byte>
    requires Plays(w, es)
    decreases |es|
  {
    if es == [] then [] else Taken(w, es[0]) + Takings(Step(w, es[0]), es[1..])
  }

  /** How many bytes came when the one before had not been read. */
  function Lost(w: World, es: seq<Event>): nat
    requires Plays(w, es)
    decreases |es|
  {
    if es == [] then 0
    else (if Arrived(w, es[0]) != [] && w.chip.status.full then 1 else 0) + Lost(Step(w, es[0]), es[1..])
  }

  /** A program that reads the data register when the status says full gets every byte that arrives, once and in order,
      until overrun is set; overrun is set exactly if a byte was lost. */
  lemma {:induction false} ReadsEveryByte(w: World, es: seq<Event>)
    requires Plays(w, es) && Undisturbed(w, es)
    ensures var v := Run(w, es);
            && (v.chip.status.overrun <==> w.chip.status.overrun || Lost(w, es) > 0)
            && (Lost(w, es) == 0 ==> Takings(w, es) + Held(v) == Held(w) + Arrivals(w, es))
            && |Takings(w, es)| + |Held(v)| + Lost(w, es) == |Held(w)| + |Arrivals(w, es)|
    decreases |es|
  {
    hide Step, Possible, Resets, Arrived, Taken;
    if es != [] {
      var v := Step(w, es[0]);
      StepReceiver(w, es[0]);
      OneByte(w, es[0]);
      HeldNext(w, es[0], v);
      ReadsEveryByte(v, es[1..]);
      Regroup(Taken(w, es[0]), Takings(v, es[1..]), Held(Run(w, es)), Held(v), Arrivals(v, es[1..]));
      Regroup(Held(w), Arrived(w, es[0]), Arrivals(v, es[1..]), [], []);
    }
  }

  lemma HeldNext(w: World, e: Event, v: World)
    requires var b, t := Arrived(w, e), Taken(w, e);
             && v.chip.rxdata == (if b != [] then b[0] else w.chip.rxdata)
             && v.chip.status.full == (b != [] || (w.chip.status.full && t == []))
             && (t != [] ==> t == [w.chip.rxdata])
    ensures !(w.chip.status.full && Arrived(w, e) != []) ==> Taken(w, e) + Held(v) == Held(w) + Arrived(w, e)
    ensures |Held(v)| == (if Arrived(w, e) != [] || (w.chip.status.full && Taken(w, e) == []) then 1 else 0)
  {
  }

  lemma Regroup(a: seq<Byte>, b: seq<Byte>, c: seq<Byte>, d: seq<Byte>, e: seq<Byte>)
    ensures (a + b) + c == a + (b + c)
    ensures a + (d + e) == (a + d) + e
  {
  }

  lemma OneByte(w: World, e: Event)
    ensures |Arrived(w, e)| <= 1 && |Taken(w, e)| <= 1 && (Arrived(w, e) == [] || Taken(w, e) == [])
    ensures Taken(w, e) != [] ==> w.chip.status.full
  {
  }

  /** Until a snapshot is loaded the data register reads as the last byte that has arrived. */
  lemma {:induction false} ReadsLastArrival(w: World, es: seq<Event>, addr: int, dsr: bool)
    requires Plays(w, es) && (forall e :: e in es ==> !e.LoadModule?) && IsData(w, addr)
    ensures var bytes := [w.chip.rxdata] + Arrivals(w, es);
            Read(Run(w, es), addr, dsr).1 == bytes[|bytes| - 1] && Run(w, es).config == w.config
    decreases |es|
  {
    hide Step, Possible, Read, Arrived;
    if es == [] {
      ReadReceiver(w, addr, dsr);
    } else {
      StepData(w, es[0]);
      ReadsLastArrival(Step(w, es[0]), es[1..], addr, dsr);
      OneByte(w, es[0]);
    }
  }

  lemma StepData(w: World, e: Event)
    requires Possible(w, e) && !e.LoadModule?
    ensures var v, b := Step(w, e), Arrived(w, e);
            v.config == w.config && v.chip.rxdata == (if b != [] then b[0] else w.chip.rxdata)
  {
    hide Store, StoreRmw, Read, TxAlarm, RxAlarm, SetTicks, Load, Wrap, Unpack;
    match e
    case StoreAt(addr, byte, up) => StoreReceiver(w, addr, byte, up);
    case StoreRmwAt(addr, byte, up) => RmwReceiver(w, addr, byte, up);
    case ReadAt(addr, dsr) => ReadReceiver(w, addr, dsr);
    case TxDue => TransmitReceiver(w);
    case RxDue(received) => ReceptionReceiver(w, received);
    case ResetLine => TicksReceiver(w.(chip := w.chip.(rts := false, dtr := false, cmd := 0, ctrl := 0, ectrl := 0)));
    case _ =>
  }

  /** A snapshot holds the registers, the status byte as it reads, and how far away the alarms are, 0 for none. */
  lemma SavedMeans(w: World, dsr: bool)
    requires Mirror(w) && !w.chip.status.top
    ensures var s, c := Save(w, dsr).1, w.chip;
            && s.txdata == c.txdata && s.rxdata == c.rxdata && s.cmd == c.cmd && s.ctrl == c.ctrl && s.inTx == c.inTx
            && s.sr == Num(c.status.parity) + 2 * Num(c.status.framing) + 4 * Num(c.status.overrun) + 8 * Num(c.status.full)
                       + 16 * Num(c.status.empty) + 32 * Num(dsr) + 128 * Num(c.irq)
            && s.act == (if w.tx.Some? then (w.tx.value - w.now) % 0x1_0000_0000 else 0)
            && s.aar == Some(if w.rx.Some? then (w.rx.value - w.now) % 0x1_0000_0000 else 0)
  {
    var s := w.chip.status;
    ByteSum(w.chip.irq, false, dsr, s.empty, s.full, s.overrun, s.framing, s.parity);
    hide ByteOf;
  }

  /** A snapshot brings the byte of its module. */
  lemma LoadedData(w: World, s: Snapshot, up: bool, addr: int, dsr: bool)
    requires Sane(w) && IsData(w, addr)
    ensures Read(Load(w, Whole(s), up), addr, dsr).1 == s.rxdata
  {
    hide Load, Read, Unpack, Wait, Heard, RxRestored;
    LoadConfig(w, s, up);
    LoadRestores(w, s, up);
    ReadReceiver(Load(w, Whole(s), up), addr, dsr);
  }

  /** And its DTR bit opens or closes the line; RTS and DTR are set from its command register only if the line was closed
      before. */
  lemma LoadedLines(w: World, s: Snapshot, up: bool)
    requires Sane(w)
    ensures var v := Load(w, Whole(s), up);
            var opens := s.cmd % 2 == 1 && !w.chip.fd;
            && v.chip.fd == (if opens then up else w.chip.fd && s.cmd % 2 == 1)
            && v.chip.dtr == (opens || w.chip.dtr) && v.chip.rts == (if opens then s.cmd / 4 % 4 != 0 else w.chip.rts)
  {
    hide LoadAlarms, SetTicks, Unpack, LoadLine;
    var q := LoadRegisters(LoadQuiet(w), s);
    LineLoaded(q, up);
    var u := LoadLine(q, up);
    TicksRegisters(u);
    var t := SetTicks(u);
    LoadAlarmsOnly(t.(chip := t.chip.(inTx := s.inTx)), s);
  }

  lemma LineLoaded(q: World, up: bool)
    ensures var v := LoadLine(q, up);
            var opens := q.chip.cmd % 2 == 1 && !q.chip.fd;
            && v.chip.fd == (if opens then up else q.chip.fd && q.chip.cmd % 2 == 1)
            && v.chip.dtr == (opens || q.chip.dtr) && v.chip.rts == (if opens then q.chip.cmd / 4 % 4 != 0 else q.chip.rts)
  {
    hide Handshake;
    HandshakeRegisters(q.(chip := q.chip.(fd := up)));
  }

  // ---- interrupts ----

  /** Who latches the interrupt and who clears it: a byte that arrives while bit 1 of the command register is clear, a byte
      that is sent while bits 3 and 2 are 01; a read of the status register, a write to it and a reset. */
  lemma InterruptMeans(w: World, e: Event)
    requires Possible(w, e) && !e.LoadModule?
    ensures Step(w, e).chip.irq ==
            match e
            case RxDue(_) => w.chip.irq || (Arrived(w, e) != [] && w.chip.cmd % 4 < 2)
            case TxDue => w.chip.irq || (w.chip.inTx == 2 && w.chip.fd && w.chip.cmd / 4 % 4 == 1)
            case ReadAt(addr, _) => w.chip.irq && !IsStatus(w, addr)
            case StoreAt(addr, _, _) => w.chip.irq && !IsStatus(w, addr)
            case StoreRmwAt(addr, _, _) => w.chip.irq && !IsStatus(w, addr)
            case ResetLine => false
            case _ => w.chip.irq
  {
    hide Store, StoreRmw, Read, TxAlarm, RxAlarm, SetTicks, Load, Wrap, Unpack;
    match e
    case StoreAt(addr, byte, up) => StoreReceiver(w, addr, byte, up);
    case StoreRmwAt(addr, byte, up) => RmwReceiver(w, addr, byte, up);
    case ReadAt(addr, dsr) => ReadReceiver(w, addr, dsr);
    case TxDue => TransmitReceiver(w);
    case RxDue(received) => ReceptionReceiver(w, received);
    case _ =>
  }

  // ---- registers ----

  /** The status register: parity, framing, overrun, full, empty, DSR and DCD from bit 0 up, and in bit 7 the interrupt,
      which the read clears. */
  lemma StatusMeans(w: World, addr: int, dsr: bool)
    requires IsStatus(w, addr) && !w.chip.status.top
    ensures var c := Read(w, addr, dsr).1;
            c == Num(w.chip.status.parity) + 2 * Num(w.chip.status.framing) + 4 * Num(w.chip.status.overrun)
                 + 8 * Num(w.chip.status.full) + 16 * Num(w.chip.status.empty) + 32 * Num(dsr) + 128 * Num(w.chip.irq)
    ensures !Read(w, addr, dsr).0.chip.irq && !Read(w, addr, dsr).0.chip.status.dcd
  {
    var s := w.chip.status;
    ByteSum(w.chip.irq, false, dsr, s.empty, s.full, s.overrun, s.framing, s.parity);
    hide ByteOf;
  }

  predicate SameRegisters(w: World, v: World) {
    v.chip.cmd == w.chip.cmd && v.chip.ctrl == w.chip.ctrl && v.chip.ectrl == w.chip.ectrl && v.config == w.config
    && v.chip.fd == w.chip.fd && v.chip.inTx == w.chip.inTx
  }

  lemma TicksRegisters(w: World)
    ensures SameRegisters(w, SetTicks(w)) && SetTicks(w).chip.rts == w.chip.rts && SetTicks(w).chip.dtr == w.chip.dtr
    ensures SetTicks(w).chip.activeRx == w.chip.activeRx && SetTicks(w).chip.activeTx == w.chip.activeTx
  {
    hide CharTicks, Wrap;
  }

  lemma RequestRegisters(w: World)
    ensures var v := RequestToSend(w);
            SameRegisters(w, v) && v.chip.rts == (w.chip.cmd / 4 % 4 != 0) && v.chip.activeRx == v.chip.rts
            && v.chip.activeTx == w.chip.activeTx
  {
    hide SetTicks;
    TicksRegisters(w.(chip := w.chip.(rts := true, activeRx := true)));
  }

  lemma HandshakeRegisters(w: World)
    ensures var v := Handshake(w);
            SameRegisters(w, v) && v.chip.rts == (w.chip.cmd / 4 % 4 != 0) && v.chip.dtr == (w.chip.cmd % 2 == 1)
            && v.chip.activeRx == v.chip.rts && v.chip.activeTx == w.chip.activeTx
  {
    hide RequestToSend;
    RequestRegisters(w);
  }

  /** A write to the command register: RTS is on unless bits 3 and 2 are 00, DTR follows bit 0 and opens or closes the line,
      the receiver runs with RTS or when the line has just been opened, and a line that is closed stops the transmitter. */
  lemma CommandMeans(w: World, byte: Byte, up: bool)
    ensures var v := Store(w, 2, byte, up);
            var opens, closes := byte % 2 == 1 && !w.chip.fd, byte % 2 == 0 && w.chip.fd;
            && v.chip.cmd == byte && v.chip.rts == (byte / 4 % 4 != 0) && v.chip.dtr == (byte % 2 == 1)
            && v.chip.fd == (if opens then up else w.chip.fd && !closes)
            && v.chip.activeRx == (v.chip.rts || opens) && v.chip.activeTx == (w.chip.activeTx && !closes)
  {
    hide SetTicks, Handshake;
    var c := w.(chip := w.chip.(cmd := byte));
    HandshakeRegisters(c);
    var h := Handshake(c);
    TicksRegisters(h.(chip := h.chip.(fd := up, activeRx := true)));
  }

  /** A byte that is written with DTR on is on the line one cycle later, or when the byte before it has left the line; without
      DTR it stays in the data register. */
  lemma WriteMeans(w: World, addr: int, byte: Byte, up: bool)
    requires IsData(w, addr)
    ensures var v := Store(w, addr, byte, up);
            && v.chip.txdata == byte && v.sent == w.sent
            && (w.chip.cmd % 2 == 1 ==>
                  v.chip.inTx == 2 && !v.chip.status.empty && v.chip.activeTx
                  && v.tx == (if w.chip.activeTx then w.tx else Some((w.now + 1) % 0x1_0000_0000)))
            && (w.chip.cmd % 2 == 0 ==> v == w.(chip := w.chip.(txdata := byte)))
  {
    hide SetTicks, StoreStatus, StoreCommand;
  }

  lemma TransmissionMeans(w: World)
    requires w.chip.inTx == 2
    ensures var v := TxAlarm(w);
            && v.tx == Some((w.now + w.chip.ticks) % 0x1_0000_0000) && v.chip.inTx == 1
            && v.chip.status.empty == (w.chip.status.empty || w.chip.fd)
            && v.sent == w.sent + (if w.chip.fd then [Transmission(w.chip.txdata, w.epoch + w.now, w.chip.ticks)] else [])
            && TxAlarm(v).tx.None? && TxAlarm(v).sent == v.sent && TxAlarm(v).chip.inTx == 0
  {
    TransmitOnly(w);
    TransmitOnly(TxAlarm(w));
    hide Transmit, Wrap;
    assert CountDown(Transmit(w)).tx == Some((w.now + w.chip.ticks) % 0x1_0000_0000) by { Deadline(w.now + w.chip.ticks); }
  }

  lemma Deadline(v: int)
    ensures Wrap(v) == v % 0x1_0000_0000
  {
  }

  lemma TransmitOnly(w: World)
    ensures var v := Transmit(w);
            && v.chip.inTx == w.chip.inTx && v.now == w.now && v.chip.ticks == w.chip.ticks && v.chip.fd == w.chip.fd
            && v.chip.status.empty == (w.chip.status.empty || (w.chip.inTx == 2 && w.chip.fd))
            && v.sent == w.sent + (if w.chip.inTx == 2 && w.chip.fd
                                   then [Transmission(w.chip.txdata, w.epoch + w.now, w.chip.ticks)] else [])
  {
    hide Interrupt;
    InterruptOnly(Send(w), true);
  }

  /** A write to the status register: the line is closed, RTS, DTR, transmitter, interrupt and overrun are off, and the
      three upper bits of the command register are kept. */
  lemma ProgrammedResetMeans(w: World, byte: Byte, up: bool)
    ensures var v := Store(w, 1, byte, up);
            && !v.chip.fd && !v.chip.rts && !v.chip.dtr && !v.chip.activeRx && !v.chip.activeTx && v.tx.None?
            && !v.chip.irq && !v.chip.status.overrun && v.chip.inTx == 0
            && v.chip.cmd % 32 == 0 && v.chip.cmd / 32 == w.chip.cmd / 32 && v.chip.ctrl == w.chip.ctrl
  {
    hide SetTicks, Handshake;
    var r := w.(chip := w.chip.(fd := false, status := w.chip.status.(overrun := false), cmd := w.chip.cmd / 32 * 32,
                                inTx := NO_TRANSMIT));
    HandshakeRegisters(UnsetTx(Interrupt(r, false)));
    HandshakeReceiver(UnsetTx(Interrupt(r, false)));
    HandshakeQuiet(UnsetTx(Interrupt(r, false)));
  }

  lemma HandshakeQuiet(w: World)
    ensures Handshake(w).tx == w.tx
  {
    hide CharTicks, Wrap;
  }

  /** The command and the control register, and on a Turbo232 the rate register while it is in use, read as written; bit 2
      of the latter says that it is in use. */
  lemma ReadsBack(w: World, byte: Byte, up: bool, dsr: bool)
    ensures Read(Store(w, 2, byte, up), 2, dsr).1 == byte
    ensures Read(Store(w, 3, byte, up), 3, dsr).1 == byte
    ensures w.config.mode == Turbo232 && w.chip.ctrl % 16 == 0 ==> Read(Store(w, 7, byte, up), 7, dsr).1 == (byte + 4) % 256
    ensures w.config.mode == Turbo232 && w.chip.ctrl % 16 != 0 ==> Read(Store(w, 7, byte, up), 7, dsr).1 == w.chip.ectrl
  {
    CommandMeans(w, byte, up);
    StoreReceiver(w, 2, byte, up);
    StoresRate(w, byte, up);
    RegisterValues(Store(w, 2, byte, up), dsr);
    RegisterValues(Store(w, 3, byte, up), dsr);
    RegisterValues(Store(w, 7, byte, up), dsr);
    hide Store, Read;
  }

  lemma RegisterValues(w: World, dsr: bool)
    ensures Read(w, 2, dsr).1 == w.chip.cmd && Read(w, 3, dsr).1 == w.chip.ctrl
    ensures w.config.mode == Turbo232 ==> Read(w, 7, dsr).1 == (w.chip.ectrl + (if w.chip.ctrl % 16 == 0 then 4 else 0)) % 256
  {
    hide RefreshStatus, Interrupt, StatusByte;
    Mod8Byte(w.chip.ectrl);
  }

  lemma StoresRate(w: World, byte: Byte, up: bool)
    ensures Store(w, 3, byte, up).chip.ctrl == byte && Store(w, 3, byte, up).config == w.config
    ensures var v := Store(w, 7, byte, up);
            w.config.mode == Turbo232 ==>
              v.chip.ectrl == (if w.chip.ctrl % 16 == 0 then byte else w.chip.ectrl) && v.chip.ctrl == w.chip.ctrl
              && v.config == w.config
  {
    hide SetTicks, StoreCommand, StoreData, StoreStatus;
    TicksRegisters(w.(chip := w.chip.(ctrl := byte)));
    TicksRegisters(w.(chip := w.chip.(ectrl := byte)));
  }

  /** A character takes the time of its bits at the rate that is set: a start bit, eight data bits less the word length
      code, a parity bit if bit 5 of the command register is set, and one stop bit or, with bit 7 of the control
      register, two; a reception takes a quarter more. */
  lemma CharacterTime(w: World, byte: Byte)
    ensures var v := SetTicks(w.(chip := w.chip.(ctrl := byte)));
            var bits := 1 + (8 - byte / 32 % 4) + (if w.chip.cmd / 32 % 2 == 1 then 1 else 0) + (if byte >= 128 then 2 else 1);
            var cycles := w.config.cyclesPerSecond as real / Rate(w.config.mode, byte, w.chip.ectrl) * bits as real;
            v.chip.ticks as real <= cycles < v.chip.ticks as real + 1.0 && v.chip.ticksRx == v.chip.ticks * 5 / 4
  {
    hide SetTicks, CharTicks, FrameBits, Bps, Rate;
    var bits := 1 + (8 - byte / 32 % 4) + (if w.chip.cmd / 32 % 2 == 1 then 1 else 0) + (if byte >= 128 then 2 else 1);
    TicksSet(w.(chip := w.chip.(ctrl := byte)));
    FrameMeans(w.chip.cmd, byte);
    RateMeans(w.config.mode, byte, w.chip.ectrl);
    TicksFloor(w.config, w.chip.cmd, byte, w.chip.ectrl, Rate(w.config.mode, byte, w.chip.ectrl), bits);
  }

  lemma TicksFloor(c: Config, cmd: Byte, ctrl: Byte, ectrl: Byte, rate: real, bits: int)
    requires rate == Bps(c.mode, ctrl, ectrl) && rate > 0.0 && bits == FrameBits(cmd, ctrl)
    ensures var cycles := c.cyclesPerSecond as real / rate * bits as real;
            CharTicks(c, cmd, ctrl, ectrl) as real <= cycles < CharTicks(c, cmd, ctrl, ectrl) as real + 1.0
  {
    hide Bps, FrameBits;
    Floors(c.cyclesPerSecond as real / rate * bits as real);
  }

  lemma Floors(x: real)
    ensures x.Floor as real <= x < x.Floor as real + 1.0
  {
  }

  lemma TicksSet(w: World)
    ensures var v := SetTicks(w);
            v.chip.ticks == CharTicks(w.config, w.chip.cmd, w.chip.ctrl, w.chip.ectrl) && v.chip.ticksRx == v.chip.ticks * 5 / 4
  {
    hide CharTicks, Wrap;
  }

  lemma FrameMeans(cmd: Byte, ctrl: Byte)
    ensures FrameBits(cmd, ctrl)
         == 1 + (8 - ctrl / 32 % 4) + (if cmd / 32 % 2 == 1 then 1 else 0) + (if ctrl >= 128 then 2 else 1)
  {
    ParityBit(cmd);
  }

  /** Bits per second: twice the standard rate on a SwiftLink and a Turbo232, whose rate 0 is one of four fast ones. */
  function Rate(mode: Mode, ctrl: Byte, ectrl: Byte): real
    ensures Rate(mode, ctrl, ectrl) > 0.0
  {
    var standard := match ctrl % 16
      case 0 => 10.0
      case 1 => 50.0
      case 2 => 75.0
      case 3 => 109.92
      case 4 => 134.58
      case 5 => 150.0
      case 6 => 300.0
      case 7 => 600.0
      case 8 => 1200.0
      case 9 => 1800.0
      case 10 => 2400.0
      case 11 => 3600.0
      case 12 => 4800.0
      case 13 => 7200.0
      case 14 => 9600.0
      case _ => 19200.0;
    if mode == Normal then standard
    else if mode == Turbo232 && ctrl % 16 == 0 then
      (match ectrl % 4 case 0 => 230400.0 case 1 => 115200.0 case 2 => 57600.0 case _ => 28800.0)
    else 2.0 * standard
  }

  lemma RateMeans(mode: Mode, ctrl: Byte, ectrl: Byte)
    ensures Bps(mode, ctrl, ectrl) == Rate(mode, ctrl, ectrl)
  {
  }

  lemma ParityBit(cmd: Byte)
    ensures Bit5(cmd) == (cmd / 32 % 2 == 1)
  {
  }
}
