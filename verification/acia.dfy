/** vice/src/aciacore.c on top of the alarm scheduler. */
module Acia6551 {
  import opened Bits
  import opened Wrappers
  import opened AlarmQueue
  import opened AciaSpec

  class Acia {
    const config: Config
    const context: AlarmContext
    const alarmTx: Alarm
    const alarmRx: Alarm
    /** The static struct acia. */
    var chip: Chip
    ghost var epoch: int
    ghost var history: seq<TxEvent>
    ghost var sent: seq<Transmission>

    /** acia_preinit and myacia_init. */
    constructor (config: Config, scheduler: AlarmContext)
      requires scheduler.Valid() && |scheduler.Pending()| + 2 <= MAX_PENDING
      modifies scheduler`alarms, scheduler`list, scheduler.list`prev
      ensures this.config == config && context == scheduler && Attached()
      ensures context.list == [alarmRx, alarmTx] + old(scheduler.list) && fresh(alarmTx) && fresh(alarmRx)
      ensures context.Pending() == old(scheduler.Pending())
    {
      hide AlarmContext.Linked, AlarmContext.Cached, AlarmContext.Pending, AlarmContext.Indexed;
      this.config, this.context := config, scheduler;
      var tx := scheduler.New(TransmitCallback);
      var rx := scheduler.New(ReceiveCallback);
      alarmTx, alarmRx := tx, rx;
      chip := Chip(false, 0, false, false, 0, 0, 0, 0, 0, 0, Unpack(0), 21111, 21111, false, false, 0, 0, false, false);
      epoch, history, sent := 0, [], [];
      new;
      TwoMore(context.Pending(), alarmTx, alarmRx);
    }

    /** The alarms are in the scheduler, which has room for both. */
    ghost predicate Attached()
      reads context, context.pendingAlarms, context.list
    {
      context.Valid() && alarmTx in context.list && alarmRx in context.list && alarmTx != alarmRx
      && |context.Pending().Keys + {alarmTx, alarmRx}| <= MAX_PENDING
    }

    ghost function View(myclk: Clock): World
      requires Attached()
      reads this, context, context.pendingAlarms, context.list
    {
      World(config, myclk, chip, Find(context.Pending(), alarmTx), Find(context.Pending(), alarmRx),
            epoch, history, sent)
    }

    /** The pending alarms of everyone else. */
    ghost function Elsewhere(): map<Alarm?, Clock>
      requires Attached()
      reads context, context.pendingAlarms, context.list
    {
      context.Pending() - {alarmTx, alarmRx}
    }

    // ---- the alarms ----

    method AlarmSet(alarm: Alarm, clk: Clock)
      requires Attached() && (alarm == alarmTx || alarm == alarmRx)
      modifies context`numPending, context`nextClk, context`nextIdx, context.pendingAlarms, context.list`pendingIdx
      ensures Attached() && Elsewhere() == old(Elsewhere())
      ensures Find(context.Pending(), alarmTx) ==
              if alarm == alarmTx then Some(clk) else Find(old(context.Pending()), alarmTx)
      ensures Find(context.Pending(), alarmRx) ==
              if alarm == alarmRx then Some(clk) else Find(old(context.Pending()), alarmRx)
    {
      hide AlarmContext.Linked, AlarmContext.Cached, AlarmContext.Pending, AlarmContext.Indexed;
      RoomFor(context.Pending(), alarmTx, alarmRx);
      context.Set(alarm, clk);
      assert context.Pending().Keys + {alarmTx, alarmRx} == old(context.Pending().Keys) + {alarmTx, alarmRx};
      assert context.Pending() - {alarmTx, alarmRx} == old(context.Pending()) - {alarmTx, alarmRx};
    }

    method AlarmUnset(alarm: Alarm)
      requires Attached() && (alarm == alarmTx || alarm == alarmRx)
      modifies context`numPending, context`nextClk, context`nextIdx, context.pendingAlarms, context.list`pendingIdx
      ensures Attached() && Elsewhere() == old(Elsewhere())
      ensures Find(context.Pending(), alarmTx) ==
              if alarm == alarmTx then None else Find(old(context.Pending()), alarmTx)
      ensures Find(context.Pending(), alarmRx) ==
              if alarm == alarmRx then None else Find(old(context.Pending()), alarmRx)
    {
      hide AlarmContext.Linked, AlarmContext.Cached, AlarmContext.Pending, AlarmContext.Indexed;
      context.Unset(alarm);
      assert context.Pending().Keys + {alarmTx, alarmRx} == old(context.Pending().Keys) + {alarmTx, alarmRx};
      assert context.Pending() - {alarmTx, alarmRx} == old(context.Pending()) - {alarmTx, alarmRx};
    }

    method ArmTx(myclk: Clock, delay: int)
      requires Attached()
      modifies this, context`numPending, context`nextClk, context`nextIdx, context.pendingAlarms, context.list`pendingIdx
      ensures Attached() && Elsewhere() == old(Elsewhere())
      ensures View(myclk) == SetTx(old(View(myclk)), delay)
    {
      hide Acia.Elsewhere, Find, AlarmContext.Valid, AlarmContext.Pending, Wrap;
      chip := chip.(clkTx := Wrap(myclk + delay));
      AlarmSet(alarmTx, chip.clkTx);
      chip := chip.(activeTx := true);
    }

    method ArmRx(myclk: Clock, delay: int)
      requires Attached()
      modifies this, context`numPending, context`nextClk, context`nextIdx, context.pendingAlarms, context.list`pendingIdx
      ensures Attached() && Elsewhere() == old(Elsewhere())
      ensures View(myclk) == SetRxAt(old(View(myclk)), delay)
    {
      hide Acia.Elsewhere, Find, AlarmContext.Valid, AlarmContext.Pending, Wrap;
      chip := chip.(clkRx := Wrap(myclk + delay));
      AlarmSet(alarmRx, chip.clkRx);
      chip := chip.(activeRx := true);
    }

    method DisarmTx(ghost myclk: Clock)
      requires Attached()
      modifies this, context`numPending, context`nextClk, context`nextIdx, context.pendingAlarms, context.list`pendingIdx
      ensures Attached() && Elsewhere() == old(Elsewhere())
      ensures View(myclk) == UnsetTx(old(View(myclk)))
    {
      hide Acia.Elsewhere, Find, AlarmContext.Valid, AlarmContext.Pending, Wrap;
      AlarmUnset(alarmTx);
      chip := chip.(activeTx := false);
    }

    method DisarmRx(ghost myclk: Clock)
      requires Attached()
      modifies this, context`numPending, context`nextClk, context`nextIdx, context.pendingAlarms, context.list`pendingIdx
      ensures Attached() && Elsewhere() == old(Elsewhere())
      ensures View(myclk) == UnsetRx(old(View(myclk)))
    {
      hide Acia.Elsewhere, Find, AlarmContext.Valid, AlarmContext.Pending, Wrap;
      AlarmUnset(alarmRx);
      chip := chip.(activeRx := false);
    }

    // ---- auxiliary functions ----

    /** acia_set_int together with the latch it goes with. */
    method AciaSetInt(on: bool, ghost myclk: Clock)
      requires Attached()
      modifies `chip
      ensures View(myclk) == Interrupt(old(View(myclk)), on)
    {
      hide Find;
      if config.wired {
        chip := chip.(line := on);
      }
      chip := chip.(irq := on);
    }

    /** Assignments to fields of the struct. */
    method Assign(c: Chip, ghost myclk: Clock)
      requires Attached()
      modifies `chip
      ensures View(myclk) == old(View(myclk)).(chip := c)
    {
      hide Find;
      chip := c;
    }

    lemma Viewed(myclk: Clock)
      requires Attached()
      ensures View(myclk).chip == chip && View(myclk).config == config && View(myclk).now == myclk
    {
      hide Find;
    }

    method SetAciaTicks(myclk: Clock)
      requires Attached()
      modifies this, context`numPending, context`nextClk, context`nextIdx, context.pendingAlarms, context.list`pendingIdx
      ensures Attached() && Elsewhere() == old(Elsewhere())
      ensures View(myclk) == SetTicks(old(View(myclk)))
    {
      hide Acia.Attached, Acia.Elsewhere, Find, CharTicks, SetRxAt;
      chip := chip.(ticks := CharTicks(config, chip.cmd, chip.ctrl, chip.ectrl));
      chip := chip.(ticksRx := chip.ticks * 5 / 4);
      if chip.activeRx {
        ArmRx(myclk, chip.ticksRx);
      }
    }

    /** The RTS half of acia_set_handshake_lines. */
    method SetRts(myclk: Clock)
      requires Attached()
      modifies this, context`numPending, context`nextClk, context`nextIdx, context.pendingAlarms, context.list`pendingIdx
      ensures Attached() && Elsewhere() == old(Elsewhere())
      ensures View(myclk) == RequestToSend(old(View(myclk)))
    {
      hide Acia.View, Acia.Attached, Acia.Elsewhere, Find, SetTicks, UnsetRx;
      Viewed(myclk);
      var active := chip.activeRx;
      if chip.cmd / 4 % 4 == 0 {
        Assign(chip.(rts := false), myclk);
        if active {
          DisarmRx(myclk);
        }
      } else {
        Assign(chip.(rts := true), myclk);
        if !active {
          Viewed(myclk);
          Assign(chip.(activeRx := true), myclk);
          SetAciaTicks(myclk);
        }
      }
    }

    method SetHandshakeLines(myclk: Clock)
      requires Attached()
      modifies this, context`numPending, context`nextClk, context`nextIdx, context.pendingAlarms, context.list`pendingIdx
      ensures Attached() && Elsewhere() == old(Elsewhere())
      ensures View(myclk) == Handshake(old(View(myclk)))
    {
      hide Acia.Attached, Acia.Elsewhere, Find, RequestToSend, DtrOn;
      ghost var w := View(myclk);
      RequestKeepsCommand(w);
      SetRts(myclk);
      if DtrOn(chip.cmd) {
        chip := chip.(dtr := true);
      } else {
        chip := chip.(dtr := false);
      }
    }

    /** A new session begins. */
    ghost method BeginSession(myclk: Clock)
      requires Attached()
      modifies `history, `sent
      ensures View(myclk) == Begin(old(View(myclk)))
    {
      hide Find;
      sent := [];
      history := if chip.inTx == DR_WRITTEN then [Written(chip.txdata)] else [];
    }

    // ---- register accesses ----

    /** The byte goes into the data register; in a session this is part of the history. */
    method Accept(byte: Byte, ghost myclk: Clock)
      requires Attached()
      modifies `chip, `history
      ensures View(myclk) == Accepted(old(View(myclk)), byte)
    {
      hide Acia.Attached, Find;
      chip := chip.(txdata := byte, inTx := DR_WRITTEN);
      history := if chip.fd then history + [Written(byte)] else history;
    }

    method StoreDr(byte: Byte, myclk: Clock)
      requires Attached()
      modifies this, context`numPending, context`nextClk, context`nextIdx, context.pendingAlarms, context.list`pendingIdx
      ensures Attached() && Elsewhere() == old(Elsewhere())
      ensures View(myclk) == StoreData(old(View(myclk)), byte)
    {
      hide Acia.View, Acia.Attached, Acia.Elsewhere, Find, SetTx, DtrOn, Accepted;
      Viewed(myclk);
      var active := chip.activeTx;
      if DtrOn(chip.cmd) {
        Accept(byte, myclk);
        if !active {
          ArmTx(myclk, 1);
        }
        Viewed(myclk);
        Assign(chip.(status := chip.status.(empty := false)), myclk);
      } else {
        Assign(chip.(txdata := byte), myclk);
      }
    }

    method StoreSr(myclk: Clock)
      requires Attached()
      modifies this, context`numPending, context`nextClk, context`nextIdx, context.pendingAlarms, context.list`pendingIdx
      ensures Attached() && Elsewhere() == old(Elsewhere())
      ensures View(myclk) == StoreStatus(old(View(myclk)))
    {
      hide Acia.View, Acia.Attached, Acia.Elsewhere, Find, Interrupt, UnsetTx, Handshake, Begin;
      Viewed(myclk);
      Assign(chip.(fd := false, status := chip.status.(overrun := false), cmd := chip.cmd / 32 * 32,
                   inTx := NO_TRANSMIT), myclk);
      AciaSetInt(false, myclk);
      DisarmTx(myclk);
      SetHandshakeLines(myclk);
      BeginSession(myclk);
    }

    method StoreCmd(byte: Byte, up: bool, myclk: Clock)
      requires Attached()
      modifies this, context`numPending, context`nextClk, context`nextIdx, context.pendingAlarms, context.list`pendingIdx
      ensures Attached() && Elsewhere() == old(Elsewhere())
      ensures View(myclk) == StoreCommand(old(View(myclk)), byte, up)
    {
      hide Acia.Attached, Acia.Elsewhere, Find, SetTicks, UnsetTx, Handshake, Begin, DtrOn;
      chip := chip.(cmd := byte);
      SetHandshakeLines(myclk);
      if DtrOn(byte) && !chip.fd {
        chip := chip.(fd := up);
        chip := chip.(activeRx := true);
        SetAciaTicks(myclk);
        BeginSession(myclk);
      } else if chip.fd && !DtrOn(byte) {
        DisarmTx(myclk);
        chip := chip.(fd := false);
        BeginSession(myclk);
      }
    }

    /** myacia_store; up says whether the serial device can be opened. */
    method Store(addr: int, byte: Byte, up: bool, myclk: Clock)
      requires Attached()
      modifies this, context`numPending, context`nextClk, context`nextIdx, context.pendingAlarms, context.list`pendingIdx
      ensures Attached() && Elsewhere() == old(Elsewhere())
      ensures View(myclk) == AciaSpec.Store(old(View(myclk)), addr, byte, up)
    {
      hide Acia.Attached, Acia.Elsewhere, Find, SetTicks, StoreData, StoreStatus, StoreCommand, Register;
      var r := Register(config, addr);
      if r == 0 {
        StoreDr(byte, myclk);
      } else if r == 1 {
        StoreSr(myclk);
      } else if r == 3 {
        chip := chip.(ctrl := byte);
        SetAciaTicks(myclk);
      } else if r == 2 {
        StoreCmd(byte, up, myclk);
      } else if r == 7 && chip.ctrl % 16 == 0 {
        chip := chip.(ectrl := byte);
        SetAciaTicks(myclk);
      }
    }

    /** myacia_store with mycpu_rmw_flag set. */
    method StoreRmw(addr: int, byte: Byte, up: bool, myclk: Clock)
      requires Attached()
      modifies this, context`numPending, context`nextClk, context`nextIdx, context.pendingAlarms, context.list`pendingIdx
      ensures Attached() && Elsewhere() == old(Elsewhere())
      ensures View(myclk) == AciaSpec.StoreRmw(old(View(myclk)), addr, byte, up)
    {
      hide Acia.Attached, Acia.Elsewhere, Find, AciaSpec.Store;
      ghost var w := View(myclk);
      Store(addr, chip.lastRead, up, Wrap(myclk - 1));
      Store(addr, byte, up, myclk);
    }

    /** acia_get_status. */
    method GetStatus(dsr: bool, ghost myclk: Clock)
      requires Attached()
      modifies `chip
      ensures View(myclk) == RefreshStatus(old(View(myclk)), dsr)
    {
      hide Acia.View, Find;
      Viewed(myclk);
      Assign(chip.(status := chip.status.(dcd := false, dsr := false)), myclk);
      if dsr {
        Viewed(myclk);
        Assign(chip.(status := chip.status.(dsr := true)), myclk);
      }
    }

    /** myacia_read; dsr is the state of the DSR line. */
    method Read(addr: int, dsr: bool, ghost myclk: Clock) returns (c: Byte)
      requires Attached()
      modifies `chip
      ensures (View(myclk), c) == AciaSpec.Read(old(View(myclk)), addr, dsr)
    {
      hide Find, RefreshStatus, Interrupt, StatusByte, U8, Register;
      var r := Register(config, addr);
      if r == 0 {
        chip := chip.(status := chip.status.(full := false));
        chip := chip.(lastRead := chip.rxdata);
        c := chip.rxdata;
      } else if r == 1 {
        GetStatus(dsr, myclk);
        c := StatusByte(chip.status, chip.irq);
        AciaSetInt(false, myclk);
        chip := chip.(lastRead := c);
      } else if r == 3 {
        chip := chip.(lastRead := chip.ctrl);
        c := chip.ctrl;
      } else if r == 2 {
        chip := chip.(lastRead := chip.cmd);
        c := chip.cmd;
      } else if r == 7 {
        c := U8(chip.ectrl + (if chip.ctrl % 16 == 0 then 4 else 0));
      } else {
        c := 0xff;
      }
    }

    // ---- alarm functions ----

    /** The byte in the data register goes to the serial device. */
    method Putc(ghost myclk: Clock)
      requires Attached()
      modifies `chip, `history, `sent
      ensures View(myclk) == Send(old(View(myclk)))
    {
      hide Find;
      sent := sent + [Transmission(chip.txdata, epoch + myclk, chip.ticks)];
      history := history + [Sent];
      chip := chip.(status := chip.status.(empty := true));
    }

    method Decrement(myclk: Clock)
      requires Attached()
      modifies this, context`numPending, context`nextClk, context`nextIdx, context.pendingAlarms, context.list`pendingIdx
      ensures Attached() && Elsewhere() == old(Elsewhere())
      ensures View(myclk) == CountDown(old(View(myclk)))
    {
      hide Acia.Attached, Acia.Elsewhere, Find, SetTx, UnsetTx;
      if chip.inTx != NO_TRANSMIT {
        chip := chip.(inTx := chip.inTx - 1);
      }
      if chip.inTx != NO_TRANSMIT {
        ArmTx(myclk, chip.ticks);
      } else {
        DisarmTx(myclk);
      }
    }

    /** int_acia_tx. */
    method IntTx(myclk: Clock)
      requires Attached()
      modifies this, context`numPending, context`nextClk, context`nextIdx, context.pendingAlarms, context.list`pendingIdx
      ensures Attached() && Elsewhere() == old(Elsewhere())
      ensures View(myclk) == TxAlarm(old(View(myclk)))
    {
      hide Acia.View, Acia.Attached, Acia.Elsewhere, Find, Send, Interrupt, CountDown;
      Viewed(myclk);
      var transmitter := chip.cmd / 4 % 4;
      if chip.inTx == DR_WRITTEN && chip.fd {
        Putc(myclk);
        if transmitter == 1 {
          AciaSetInt(true, myclk);
        }
      }
      Decrement(myclk);
    }

    method Getc(byte: Byte, ghost myclk: Clock)
      requires Attached()
      modifies `chip
      ensures View(myclk) == Receive(old(View(myclk)), byte)
    {
      hide Acia.Attached, Acia.Elsewhere, Find, Interrupt, Bit1;
      chip := chip.(rxdata := byte);
      if !Bit1(chip.cmd) {
        AciaSetInt(true, myclk);
      }
      if chip.status.full {
        chip := chip.(status := chip.status.(overrun := true));
      } else {
        chip := chip.(status := chip.status.(full := true));
      }
    }

    /** int_acia_rx; received is what the serial device has to offer. */
    method IntRx(received: Option<Byte>, myclk: Clock)
      requires Attached()
      modifies this, context`numPending, context`nextClk, context`nextIdx, context.pendingAlarms, context.list`pendingIdx
      ensures Attached() && Elsewhere() == old(Elsewhere())
      ensures View(myclk) == RxAlarm(old(View(myclk)), received)
    {
      hide Acia.Attached, Acia.Elsewhere, Find, Receive, SetRxAt;
      if chip.fd && received.Some? {
        Getc(received.value, myclk);
      }
      ArmRx(myclk, chip.ticksRx);
    }

    // ---- reset, clock shift and snapshots ----

    /** myacia_reset. */
    method ResetAcia(myclk: Clock)
      requires Attached()
      modifies this, context`numPending, context`nextClk, context`nextIdx, context.pendingAlarms, context.list`pendingIdx
      ensures Attached() && Elsewhere() == old(Elsewhere())
      ensures View(myclk) == AciaSpec.Reset(old(View(myclk)))
    {
      hide Acia.View, Acia.Attached, Acia.Elsewhere, Find, SetTicks, UnsetTx, UnsetRx, Interrupt, Begin, Unpack;
      Viewed(myclk);
      Assign(chip.(rts := false, dtr := false, cmd := 0, ctrl := 0, ectrl := 0), myclk);
      SetAciaTicks(myclk);
      Viewed(myclk);
      Assign(chip.(status := Unpack(0x10), inTx := NO_TRANSMIT, fd := false), myclk);
      DisarmTx(myclk);
      DisarmRx(myclk);
      AciaSetInt(false, myclk);
      BeginSession(myclk);
    }

    /** clk_overflow_callback. */
    method ClkOverflow(sub: Clock)
      modifies `chip, `epoch
      ensures chip == old(chip).(clkTx := Wrap(old(chip).clkTx - sub), clkRx := Wrap(old(chip).clkRx - sub))
      ensures epoch == old(epoch) + sub
    {
      chip := chip.(clkTx := Wrap(chip.clkTx - sub));
      chip := chip.(clkRx := Wrap(chip.clkRx - sub));
      epoch := epoch + sub;
    }

    /** myacia_snapshot_write_module. */
    method SnapshotWrite(dsr: bool, myclk: Clock) returns (s: Snapshot)
      requires Attached()
      modifies `chip
      ensures (View(myclk), s) == Save(old(View(myclk)), dsr)
    {
      hide Find, StatusByte, Wrap;
      var act := if chip.activeTx then Wrap(chip.clkTx - myclk) else 0;
      var aar := if chip.activeRx then Wrap(chip.clkRx - myclk) else 0;
      GetStatus(dsr, myclk);
      var sr := StatusByte(chip.status, chip.irq);
      s := Snapshot(chip.txdata, chip.rxdata, sr, chip.cmd, chip.ctrl, chip.inTx, act, Some(aar));
    }

    method RestoreLine(up: bool, myclk: Clock)
      requires Attached()
      modifies this, context`numPending, context`nextClk, context`nextIdx, context.pendingAlarms, context.list`pendingIdx
      ensures Attached() && Elsewhere() == old(Elsewhere())
      ensures View(myclk) == LoadLine(old(View(myclk)), up)
    {
      hide Acia.Attached, Acia.Elsewhere, Find, Handshake, DtrOn;
      if DtrOn(chip.cmd) && !chip.fd {
        chip := chip.(fd := up);
        SetHandshakeLines(myclk);
      } else if chip.fd && !DtrOn(chip.cmd) {
        chip := chip.(fd := false);
      }
    }

    method RestoreAlarms(s: Snapshot, myclk: Clock)
      requires Attached()
      modifies this, context`numPending, context`nextClk, context`nextIdx, context.pendingAlarms, context.list`pendingIdx
      ensures Attached() && Elsewhere() == old(Elsewhere())
      ensures View(myclk) == LoadAlarms(old(View(myclk)), s)
    {
      hide Acia.Attached, Acia.Elsewhere, Find, SetTx, SetRxAt, UnsetRx;
      if s.act != 0 {
        ArmTx(myclk, s.act);
        ArmRx(myclk, s.act);
      }
      if s.aar.Some? {
        if s.aar.value != 0 {
          ArmRx(myclk, s.aar.value);
        } else {
          DisarmRx(myclk);
        }
      }
    }

    method RestoreRegisters(s: Snapshot, ghost myclk: Clock)
      requires Attached()
      modifies `chip
      ensures View(myclk) == LoadRegisters(old(View(myclk)), s)
    {
      hide Acia.View, Find, Unpack;
      Viewed(myclk);
      var sr := Unpack(s.sr);
      var c := chip.(txdata := s.txdata, rxdata := s.rxdata, cmd := s.cmd, ctrl := s.ctrl, status := sr);
      if sr.top {
        Assign(c.(status := sr.(top := false), irq := true, line := config.wired), myclk);
      } else {
        Assign(c.(irq := false, line := false), myclk);
      }
    }

    method ReadData(bytes: seq<Byte>, chip: Chip) returns (c: Chip)
      ensures c == chip.(txdata := if |bytes| > 0 then bytes[0] else chip.txdata,
                         rxdata := if |bytes| > 1 then bytes[1] else chip.rxdata)
    {
      c := chip;
      if |bytes| > 0 {
        c := c.(txdata := bytes[0]);
      }
      if |bytes| > 1 {
        c := c.(rxdata := bytes[1]);
      }
    }

    /** The reads of a module that ends too early. */
    method ReadBytes(bytes: seq<Byte>, ghost myclk: Clock)
      requires Attached()
      modifies `chip
      ensures View(myclk) == LoadBytes(old(View(myclk)), bytes)
    {
      hide Acia.View, Find, Unpack;
      Viewed(myclk);
      var c := ReadData(bytes, chip);
      if |bytes| > 2 {
        c := c.(status := Unpack(bytes[2]));
      }
      if |bytes| > 3 {
        c := c.(cmd := bytes[3]);
      }
      if |bytes| > 4 {
        c := c.(ctrl := bytes[4]);
      }
      Assign(c, myclk);
    }

    /** Before the module is found. */
    method QuietDown(ghost myclk: Clock)
      requires Attached()
      modifies this, context`numPending, context`nextClk, context`nextIdx, context.pendingAlarms, context.list`pendingIdx
      ensures Attached() && Elsewhere() == old(Elsewhere())
      ensures View(myclk) == LoadQuiet(old(View(myclk)))
    {
      hide Acia.View, Acia.Attached, Acia.Elsewhere, Find, UnsetTx, UnsetRx, Begin;
      DisarmTx(myclk);
      DisarmRx(myclk);
      Viewed(myclk);
      Assign(chip.(line := false), myclk);
      BeginSession(myclk);
    }

    method RestoreModule(s: Snapshot, up: bool, myclk: Clock)
      requires Attached()
      modifies this, context`numPending, context`nextClk, context`nextIdx, context.pendingAlarms, context.list`pendingIdx
      ensures Attached() && Elsewhere() == old(Elsewhere())
      ensures View(myclk) == LoadWhole(old(View(myclk)), s, up)
    {
      hide Acia.View, Acia.Attached, Acia.Elsewhere, Find, Begin, LoadRegisters, LoadLine, SetTicks, LoadAlarms;
      RestoreRegisters(s, myclk);
      RestoreLine(up, myclk);
      SetAciaTicks(myclk);
      Viewed(myclk);
      Assign(chip.(inTx := s.inTx), myclk);
      RestoreAlarms(s, myclk);
      BeginSession(myclk);
    }

    /** myacia_snapshot_read_module. */
    method SnapshotRead(m: Module, up: bool, myclk: Clock) returns (ok: bool)
      requires Attached()
      modifies this, context`numPending, context`nextClk, context`nextIdx, context.pendingAlarms, context.list`pendingIdx
      ensures Attached() && Elsewhere() == old(Elsewhere())
      ensures View(myclk) == Load(old(View(myclk)), m, up) && ok == m.Whole?
    {
      hide Acia.View, Acia.Attached, Acia.Elsewhere, Find, Begin, LoadBytes, LoadQuiet, LoadWhole;
      QuietDown(myclk);
      if m.Cut? {
        ReadBytes(m.bytes, myclk);
        BeginSession(myclk);
        return false;
      }
      RestoreModule(m.data, up, myclk);
      return true;
    }
  }

  ghost function Find(m: map<Alarm?, Clock>, a: Alarm): Option<Clock> {
    if a in m then Some(m[a]) else None
  }

  lemma TwoMore(m: map<Alarm?, Clock>, a: Alarm, b: Alarm)
    ensures |m.Keys + {a, b}| <= |m| + 2
  {
    assert m.Keys + {a, b} == m.Keys + ({a, b} - m.Keys);
    Subset({a, b} - m.Keys, {a, b});
  }

  lemma RoomFor(m: map<Alarm?, Clock>, a: Alarm, b: Alarm)
    requires |m.Keys + {a, b}| <= MAX_PENDING && a != b
    ensures a in m || |m| < MAX_PENDING
    ensures b in m || |m| < MAX_PENDING
  {
    if a !in m || b !in m {
      var x := if a !in m then a else b;
      Subset(m.Keys + {x}, m.Keys + {a, b});
    }
  }

  lemma {:induction false} Subset<T>(a: set<T>, b: set<T>)
    requires a <= b
    ensures |a| <= |b|
  {
    if a != {} {
      var x :| x in a;
      Subset(a - {x}, b - {x});
    }
  }
}
