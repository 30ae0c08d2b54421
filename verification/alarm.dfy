/** vice/src/alarm.h and vice/src/alarm.c: the alarm scheduler.
    Pending alarms are kept in a dense array; every alarm knows its index there, the earliest one is cached, and
    all alarms of a context are also in a doubly linked list.  The specification is a map from alarms to clocks. */
module AlarmQueue {

  /** CLOCK, a uint32_t. */
  type Clock = c: int | 0 <= c < 0x1_0000_0000

  /** (CLOCK)~0: no pending alarm. */
  const NONE: Clock := 0xffff_ffff

  const MAX_PENDING: nat := 0x100

  /** What an alarm's callback pointer stands for. */
  datatype Callback = TransmitCallback | ReceiveCallback | OtherCallback

  class Alarm {
    const callback: Callback
    var context: AlarmContext
    var pendingIdx: int
    var next: Alarm?
    var prev: Alarm?

    constructor (context: AlarmContext, callback: Callback)
      ensures this.context == context && this.callback == callback
      ensures pendingIdx == -1 && next == null && prev == null
    {
      this.context, this.callback, pendingIdx, next, prev := context, callback, -1, null, null;
    }
  }

  datatype Slot = Slot(alarm: Alarm?, clk: Clock)

  // ---- the specification: entries and the map they stand for ----

  ghost function AsMap(es: seq<Slot>): map<Alarm?, Clock> {
    if es == [] then map[] else AsMap(es[..|es| - 1])[es[|es| - 1].alarm := es[|es| - 1].clk]
  }

  ghost predicate Distinct(es: seq<Slot>) {
    forall i, j :: 0 <= i < j < |es| ==> es[i].alarm != es[j].alarm
  }

  /** The earliest clock of a map; NONE when it is empty. */
  ghost predicate IsEarliest(m: map<Alarm?, Clock>, clk: Clock) {
    (forall a :: a in m ==> clk <= m[a]) && (if m == map[] then clk == NONE else exists a :: a in m && m[a] == clk)
  }

  /** Swap-with-last removal. */
  ghost function Removed(es: seq<Slot>, idx: nat): seq<Slot>
    requires idx < |es|
  {
    es[idx := es[|es| - 1]][..|es| - 1]
  }

  lemma {:induction false} MapHas(es: seq<Slot>, i: nat)
    requires i < |es| && Distinct(es)
    ensures es[i].alarm in AsMap(es) && AsMap(es)[es[i].alarm] == es[i].clk
  {
    if i < |es| - 1 {
      MapHas(es[..|es| - 1], i);
    }
  }

  lemma {:induction false} MapOnly(es: seq<Slot>, a: Alarm?) returns (i: nat)
    requires a in AsMap(es)
    ensures i < |es| && es[i].alarm == a
  {
    if es[|es| - 1].alarm == a {
      i := |es| - 1;
    } else {
      i := MapOnly(es[..|es| - 1], a);
    }
  }

  lemma {:induction false} MapSize(es: seq<Slot>)
    requires Distinct(es)
    ensures |AsMap(es)| == |es|
  {
    if es != [] {
      var front, last := es[..|es| - 1], es[|es| - 1];
      MapSize(front);
      if last.alarm in AsMap(front) {
        var i := MapOnly(front, last.alarm);
      }
      assert AsMap(es).Keys == AsMap(front).Keys + {last.alarm};
    }
  }

  lemma RemovedAt(es: seq<Slot>, idx: nat)
    requires idx < |es|
    ensures |Removed(es, idx)| == |es| - 1
    ensures forall i :: 0 <= i < |es| - 1 ==> Removed(es, idx)[i] == es[if i == idx then |es| - 1 else i]
  {
  }

  lemma RemovedDistinct(es: seq<Slot>, idx: nat)
    requires idx < |es| && Distinct(es)
    ensures Distinct(Removed(es, idx))
  {
    hide Removed;
    RemovedAt(es, idx);
  }

  /** Two entry sequences with the same members stand for the same map. */
  lemma SameMap(es: seq<Slot>, m: map<Alarm?, Clock>)
    requires Distinct(es)
    requires forall i :: 0 <= i < |es| ==> es[i].alarm in m && m[es[i].alarm] == es[i].clk
    requires forall a :: a in m ==> exists i :: 0 <= i < |es| && es[i].alarm == a
    ensures AsMap(es) == m
  {
    forall a | a in m ensures a in AsMap(es) && AsMap(es)[a] == m[a] {
      var i :| 0 <= i < |es| && es[i].alarm == a;
      MapHas(es, i);
    }
    forall a | a in AsMap(es) ensures a in m {
      var i := MapOnly(es, a);
    }
  }

  lemma RemovedMap(es: seq<Slot>, idx: nat)
    requires idx < |es| && Distinct(es)
    ensures Distinct(Removed(es, idx)) && AsMap(Removed(es, idx)) == AsMap(es) - {es[idx].alarm}
  {
    hide Removed, AsMap;
    RemovedAt(es, idx);
    RemovedDistinct(es, idx);
    var rs, m := Removed(es, idx), AsMap(es) - {es[idx].alarm};
    forall i | 0 <= i < |rs| ensures rs[i].alarm in m && m[rs[i].alarm] == rs[i].clk {
      MapHas(es, if i == idx then |es| - 1 else i);
    }
    forall a | a in m ensures exists i :: 0 <= i < |rs| && rs[i].alarm == a {
      var i := MapOnly(es, a);
      assert rs[if i == |es| - 1 then idx else i].alarm == a;
    }
    SameMap(rs, m);
  }

  lemma UpdatedMap(es: seq<Slot>, idx: nat, clk: Clock)
    requires idx < |es| && Distinct(es)
    ensures var us := es[idx := es[idx].(clk := clk)];
            Distinct(us) && AsMap(us) == AsMap(es)[es[idx].alarm := clk]
  {
    var us, m := es[idx := es[idx].(clk := clk)], AsMap(es)[es[idx].alarm := clk];
    forall i | 0 <= i < |us| ensures us[i].alarm in m && m[us[i].alarm] == us[i].clk {
      MapHas(es, i);
    }
    forall a | a in m ensures exists i :: 0 <= i < |us| && us[i].alarm == a {
      if a != es[idx].alarm {
        var i := MapOnly(es, a);
        assert us[i].alarm == a;
      } else {
        assert us[idx].alarm == a;
      }
    }
    SameMap(us, m);
  }

  lemma AddedMap(es: seq<Slot>, a: Alarm, clk: Clock)
    ensures AsMap(es + [Slot(a, clk)]) == AsMap(es)[a := clk]
  {
    assert (es + [Slot(a, clk)])[..|es|] == es;
  }

  class AlarmContext {
    var alarms: Alarm?
    const pendingAlarms: array<Slot>
    var numPending: nat
    var nextClk: Clock
    var nextIdx: int
    ghost var list: seq<Alarm>

    /** The doubly linked list. */
    ghost predicate Linked()
      reads `alarms, `list, list`context, list`next, list`prev
    {
      && alarms == (if list == [] then null else list[0])
      && (forall i, j :: 0 <= i < j < |list| ==> list[i] != list[j])
      && (forall i :: 0 <= i < |list| ==> list[i].context == this)
      && (forall i, j :: 0 <= i < j < |list| && j == i + 1 ==> list[i].next == list[j] && list[j].prev == list[i])
      && (list != [] ==> list[0].prev == null && list[|list| - 1].next == null)
    }

    ghost function Entries(): seq<Slot>
      requires numPending <= pendingAlarms.Length
      reads `numPending, pendingAlarms
    {
      pendingAlarms[..numPending]
    }

    /** The array is dense and the alarms point back into it. */
    ghost predicate Indexed()
      reads `numPending, pendingAlarms, `list, list`pendingIdx
    {
      && pendingAlarms.Length == MAX_PENDING && numPending <= MAX_PENDING
      && (forall i :: 0 <= i < numPending ==>
            pendingAlarms[i].alarm in list && pendingAlarms[i].alarm.pendingIdx == i)
      && forall a :: a in list ==>
           a.pendingIdx == -1 || (0 <= a.pendingIdx < numPending && pendingAlarms[a.pendingIdx].alarm == a)
    }

    /** The cached clock is the earliest one, and the cached index is right when there is a clock to find. */
    ghost predicate Cached()
      requires numPending <= pendingAlarms.Length
      reads `numPending, pendingAlarms, `nextClk, `nextIdx
    {
      && (forall i :: 0 <= i < numPending ==> nextClk <= pendingAlarms[i].clk)
      && (nextClk < NONE ==> 0 <= nextIdx < numPending && pendingAlarms[nextIdx].clk == nextClk)
    }

    ghost predicate Valid()
      reads this, pendingAlarms, list
    {
      Linked() && Indexed() && Cached()
    }

    /** What the context stands for. */
    ghost function Pending(): map<Alarm?, Clock>
      requires Indexed()
      reads `numPending, pendingAlarms, `list, list`pendingIdx
    {
      AsMap(Entries())
    }

    /** alarm_context_init; the cached index is left as it is found in memory. */
    constructor (garbage: int)
      ensures Valid() && list == [] && Pending() == map[] && fresh(pendingAlarms)
    {
      alarms := null;
      pendingAlarms := new Slot[MAX_PENDING](_ => Slot(null, 0));
      numPending := 0;
      nextClk := NONE;
      nextIdx := garbage;
      list := [];
    }

    // ---- consequences of the invariant ----

    lemma EntriesDistinct()
      requires Indexed()
      ensures Distinct(Entries())
    {
      forall i, j | 0 <= i < j < numPending ensures Entries()[i].alarm != Entries()[j].alarm {
        assert pendingAlarms[i].alarm.pendingIdx == i && pendingAlarms[j].alarm.pendingIdx == j;
      }
    }

    /** An alarm is pending exactly when its index says so, and then its entry holds its clock. */
    lemma PendingAt(a: Alarm)
      requires Indexed() && a in list
      ensures a in Pending() <==> a.pendingIdx != -1
      ensures a.pendingIdx != -1 ==> Pending()[a] == pendingAlarms[a.pendingIdx].clk
    {
      EntriesDistinct();
      if a.pendingIdx != -1 {
        MapHas(Entries(), a.pendingIdx);
      } else if a in Pending() {
        var i := MapOnly(Entries(), a);
      }
    }

    lemma PendingListed()
      requires Indexed()
      ensures forall a :: a in Pending() ==> a in list
    {
      forall a | a in Pending() ensures a in list {
        var i := MapOnly(Entries(), a);
      }
    }

    /** The number of entries is the size of the map, and the cached clock is its earliest clock. */
    lemma PendingSummary()
      requires Valid()
      ensures |Pending()| == numPending && IsEarliest(Pending(), nextClk)
    {
      EntriesDistinct();
      MapSize(Entries());
      forall a | a in Pending() ensures nextClk <= Pending()[a] {
        var i := MapOnly(Entries(), a);
        MapHas(Entries(), i);
      }
      if numPending > 0 {
        var k := if nextClk < NONE then nextIdx else 0;
        MapHas(Entries(), k);
        assert Entries()[k].alarm in Pending() && Pending()[Entries()[k].alarm] == nextClk;
      }
    }

    // ---- alarm.h ----

    method UpdateNextPending()
      requires numPending <= pendingAlarms.Length
      modifies `nextClk, `nextIdx
      ensures Cached()
    {
      var clk: Clock := NONE;
      var idx := nextIdx;
      var i := 0;
      while i < numPending
        invariant 0 <= i <= numPending
        invariant forall k :: 0 <= k < i ==> clk <= pendingAlarms[k].clk
        invariant clk < NONE ==> 0 <= idx < i && pendingAlarms[idx].clk == clk
      {
        if pendingAlarms[i].clk <= clk {
          clk := pendingAlarms[i].clk;
          idx := i;
        }
        i := i + 1;
      }
      nextClk := clk;
      nextIdx := idx;
    }

    /** Add an entry for an alarm that is not pending. */
    method Append(alarm: Alarm, cpuClk: Clock)
      requires Valid() && alarm in list && alarm.pendingIdx == -1 && numPending < MAX_PENDING
      modifies `numPending, `nextClk, `nextIdx, pendingAlarms, alarm`pendingIdx
      ensures Valid() && Entries() == old(Entries()) + [Slot(alarm, cpuClk)]
    {
      var newIdx := numPending;
      pendingAlarms[newIdx] := Slot(alarm, cpuClk);
      numPending := numPending + 1;
      if cpuClk < nextClk {
        nextClk := cpuClk;
        nextIdx := newIdx;
      }
      alarm.pendingIdx := newIdx;
    }

    /** Change the clock of entry idx. */
    method Modify(idx: nat, cpuClk: Clock)
      requires Valid() && idx < numPending
      modifies `nextClk, `nextIdx, pendingAlarms
      ensures Valid() && Entries() == old(Entries())[idx := old(Entries())[idx].(clk := cpuClk)]
    {
      pendingAlarms[idx] := pendingAlarms[idx].(clk := cpuClk);
      if nextClk > cpuClk || idx == nextIdx {
        UpdateNextPending();
      }
    }

    method Set(alarm: Alarm, cpuClk: Clock)
      requires Valid() && alarm in list
      modifies `numPending, `nextClk, `nextIdx, pendingAlarms, alarm`pendingIdx
      ensures Valid()
      ensures Pending() == if alarm in old(Pending()) || |old(Pending())| < MAX_PENDING
                           then old(Pending())[alarm := cpuClk] else old(Pending())
    {
      hide AlarmContext.Linked, AlarmContext.Cached, AsMap;
      PendingAt(alarm);
      PendingSummary();
      EntriesDistinct();
      var idx := alarm.pendingIdx;
      if idx < 0 {
        if numPending >= MAX_PENDING {
          return;
        }
        AddedMap(Entries(), alarm, cpuClk);
        Append(alarm, cpuClk);
      } else {
        UpdatedMap(Entries(), idx, cpuClk);
        Modify(idx, cpuClk);
      }
    }

    // ---- alarm.c ----

    /** Take an entry out of the array: the last one moves into its place. */
    method TakeOut(idx: nat)
      requires Indexed() && idx < numPending
      modifies `numPending, pendingAlarms, list`pendingIdx
      ensures pendingAlarms.Length == MAX_PENDING && numPending == old(numPending) - 1
      ensures Entries() == Removed(old(Entries()), idx)
      ensures forall i :: 0 <= i < numPending ==>
                pendingAlarms[i] == old(pendingAlarms[if i == idx then numPending - 1 else i])
      ensures forall i :: 0 <= i < numPending ==>
                pendingAlarms[i].alarm in list && pendingAlarms[i].alarm.pendingIdx == i
                && pendingAlarms[i].alarm != old(pendingAlarms[idx].alarm)
      ensures forall a :: a in list && a != old(pendingAlarms[idx].alarm) ==>
                a.pendingIdx == -1 || (0 <= a.pendingIdx < numPending && pendingAlarms[a.pendingIdx].alarm == a)
    {
      numPending := numPending - 1;
      var last := numPending;
      if last != idx {
        pendingAlarms[idx] := pendingAlarms[last];
        pendingAlarms[idx].alarm.pendingIdx := idx;
      }
    }

    /** Keep the cached index right when entry idx has been taken out and entry last has moved there. */
    method FixCache(idx: nat, last: nat)
      requires pendingAlarms.Length == MAX_PENDING && numPending == last <= MAX_PENDING && idx <= last
      requires forall i :: 0 <= i < numPending ==> nextClk <= pendingAlarms[i].clk
      requires nextClk < NONE && nextIdx != idx ==>
                 0 <= nextIdx <= last && pendingAlarms[if nextIdx == last then idx else nextIdx].clk == nextClk
      modifies `nextClk, `nextIdx
      ensures Cached()
    {
      if nextIdx == idx {
        UpdateNextPending();
      } else if nextIdx == last {
        nextIdx := idx;
      }
    }

    /** Swap-with-last removal of the entry of a pending alarm, when it is not the only one. */
    method RemoveEntry(alarm: Alarm)
      requires Valid() && alarm in list && alarm.pendingIdx >= 0 && numPending > 1
      modifies `numPending, `nextClk, `nextIdx, pendingAlarms, list`pendingIdx
      ensures Valid() && alarm.pendingIdx == -1 && Entries() == Removed(old(Entries()), old(alarm.pendingIdx))
    {
      hide AlarmContext.Linked, AlarmContext.Entries, Removed;
      var idx := alarm.pendingIdx;
      TakeOut(idx);
      var last := numPending;
      FixCache(idx, last);
      alarm.pendingIdx := -1;
    }

    method Unset(alarm: Alarm)
      requires Valid() && alarm in list
      modifies `numPending, `nextClk, `nextIdx, pendingAlarms, list`pendingIdx
      ensures Valid() && alarm.pendingIdx == -1
      ensures Pending() == old(Pending()) - {alarm}
    {
      PendingAt(alarm);
      EntriesDistinct();
      if alarm.pendingIdx < 0 {
        return;
      }
      RemovedMap(Entries(), alarm.pendingIdx);
      if numPending > 1 {
        RemoveEntry(alarm);
      } else {
        numPending := 0;
        nextClk := NONE;
        nextIdx := -1;
        alarm.pendingIdx := -1;
      }
    }

    /** alarm_new: the new alarm becomes the head of the list. */
    method New(callback: Callback) returns (alarm: Alarm)
      requires Valid()
      modifies `alarms, `list, list`prev
      ensures Valid() && fresh(alarm) && alarm.callback == callback
      ensures list == [alarm] + old(list) && Pending() == old(Pending())
    {
      alarm := new Alarm(this, callback);
      if alarms == null {
        alarms := alarm;
      } else {
        alarm.next := alarms;
        alarms.prev := alarm;
        alarms := alarm;
      }
      list := [alarm] + list;
    }

    /** Take an alarm out of the list. */
    method Unlink(alarm: Alarm, ghost k: nat)
      requires Linked() && k < |list| && list[k] == alarm
      modifies `alarms, `list, list`next, list`prev
      ensures Linked() && list == old(list)[..k] + old(list)[k + 1..]
    {
      ghost var was := list;
      assert alarm.next == (if k + 1 < |was| then was[k + 1] else null);
      assert alarm.prev == (if k > 0 then was[k - 1] else null);
      assert alarm == alarms <==> k == 0;
      if alarm == alarms {
        alarms := alarm.next;
      }
      if alarm.next != null {
        alarm.next.prev := alarm.prev;
      }
      if alarm.prev != null {
        alarm.prev.next := alarm.next;
      }
      list := list[..k] + list[k + 1..];
      assert forall i :: 0 <= i < |list| ==> list[i] == was[if i < k then i else i + 1];
    }

    method Destroy(alarm: Alarm?, ghost k: nat)
      requires Valid() && (alarm != null ==> k < |list| && list[k] == alarm)
      modifies this, pendingAlarms, list
      ensures Valid()
      ensures alarm == null ==> list == old(list) && Pending() == old(Pending())
      ensures alarm != null ==>
                list == old(list)[..k] + old(list)[k + 1..] && Pending() == old(Pending()) - {alarm}
    {
      hide AlarmContext.Cached, AlarmContext.Entries, AsMap;
      if alarm == null {
        return;
      }
      Unset(alarm);
      Unlink(alarm, k);
    }

    /** alarm_context_destroy up to the final release of the context itself. */
    method DestroyAll()
      requires Valid()
      modifies this, pendingAlarms, list
      ensures Valid() && list == [] && Pending() == map[]
    {
      hide AlarmContext.Cached, AlarmContext.Entries, AsMap;
      var ap := alarms;
      while ap != null
        invariant Valid() && ap == alarms
        invariant list == old(list)[|old(list)| - |list|..]
        decreases |list|
      {
        var apNext := ap.next;
        Destroy(ap, 0);
        ap := apNext;
      }
      PendingListed();
      assert Pending().Keys == {};
    }

    // ---- time warp ----

    /** The loop over the array. */
    method ShiftAll(amount: Clock, direction: int)
      requires Indexed() && direction != 0
      modifies pendingAlarms
      ensures Indexed() && Entries() == ShiftedEntries(old(Entries()), amount, direction)
    {
      hide Shifted;
      var i := 0;
      while i < numPending
        invariant 0 <= i <= numPending
        invariant forall k :: 0 <= k < i ==> pendingAlarms[k] == ShiftedSlot(old(pendingAlarms[k]), amount, direction)
        invariant forall k :: i <= k < numPending ==> pendingAlarms[k] == old(pendingAlarms[k])
      {
        ShiftedClock(pendingAlarms[i].clk, amount, direction);
        if direction > 0 {
          pendingAlarms[i] := pendingAlarms[i].(clk := (pendingAlarms[i].clk + amount) % 0x1_0000_0000);
        } else {
          pendingAlarms[i] := pendingAlarms[i].(clk := (pendingAlarms[i].clk - amount) % 0x1_0000_0000);
        }
        i := i + 1;
      }
    }

    method TimeWarp(amount: Clock, direction: int)
      requires Valid()
      modifies `nextClk, pendingAlarms
      ensures Linked() && Indexed()
      ensures Entries() == ShiftedEntries(old(Entries()), amount, direction)
      ensures Cached() <==> WarpSafe(old(Entries()), old(nextClk), nextIdx, amount, direction)
      ensures nextClk == Shifted(old(nextClk), amount, direction)
    {
      hide Shifted, WarpSafe, ShiftedEntries, AlarmContext.Linked, AlarmContext.Entries, AlarmContext.Cached, IsCached;
      CachedEntries();
      NoShift(Entries(), amount);
      WarpKeepsCache(Entries(), nextClk, nextIdx, amount, direction);
      ShiftedClock(nextClk, amount, direction);
      if direction == 0 {
        return;
      }
      ShiftAll(amount, direction);
      if direction > 0 {
        nextClk := (nextClk + amount) % 0x1_0000_0000;
      } else {
        nextClk := (nextClk - amount) % 0x1_0000_0000;
      }
      CachedEntries();
    }

    lemma CachedEntries()
      requires numPending <= pendingAlarms.Length
      ensures Cached() <==> IsCached(Entries(), nextClk, nextIdx)
    {
    }
  }

  // ---- time warp: when the invariant survives ----

  function Shifted(clk: Clock, amount: Clock, direction: int): Clock {
    if direction == 0 then clk
    else (if direction > 0 then clk + amount else clk - amount) % 0x1_0000_0000
  }

  lemma ShiftedClock(clk: Clock, amount: Clock, direction: int)
    ensures direction > 0 ==> Shifted(clk, amount, direction) == (clk + amount) % 0x1_0000_0000
    ensures direction < 0 ==> Shifted(clk, amount, direction) == (clk - amount) % 0x1_0000_0000
    ensures direction == 0 ==> Shifted(clk, amount, direction) == clk
  {
  }

  function ShiftedSlot(s: Slot, amount: Clock, direction: int): Slot {
    s.(clk := Shifted(s.clk, amount, direction))
  }

  ghost function ShiftedEntries(es: seq<Slot>, amount: Clock, direction: int): seq<Slot> {
    seq(|es|, i requires 0 <= i < |es| => ShiftedSlot(es[i], amount, direction))
  }

  /** The shifted clock passes 0 or NONE. */
  predicate Wraps(clk: Clock, amount: Clock, direction: int) {
    if direction > 0 then clk + amount > NONE else direction < 0 && clk < amount
  }

  /** Something is pending, the cached index is usable, and either every pending clock wraps or none does. */
  ghost predicate WarpSafe(es: seq<Slot>, nextClk: Clock, nextIdx: int, amount: Clock, direction: int) {
    direction == 0 || amount == 0
    || (es != [] && (nextClk == NONE ==> 0 <= nextIdx < |es|)
        && forall i, j :: 0 <= i < |es| && 0 <= j < |es| ==>
             Wraps(es[i].clk, amount, direction) == Wraps(es[j].clk, amount, direction))
  }

  ghost predicate IsCached(es: seq<Slot>, nextClk: Clock, nextIdx: int) {
    (forall i :: 0 <= i < |es| ==> nextClk <= es[i].clk)
    && (nextClk < NONE ==> 0 <= nextIdx < |es| && es[nextIdx].clk == nextClk)
  }

  lemma ShiftedOrder(c: Clock, d: Clock, amount: Clock, direction: int)
    ensures Wraps(c, amount, direction) == Wraps(d, amount, direction) ==>
              (c <= d <==> Shifted(c, amount, direction) <= Shifted(d, amount, direction))
    ensures c <= d && Wraps(c, amount, direction) != Wraps(d, amount, direction) ==>
              Shifted(d, amount, direction) < Shifted(c, amount, direction)
    ensures direction != 0 && amount != 0 ==> Shifted(c, amount, direction) != c
    ensures direction == 0 || amount == 0 ==> Shifted(c, amount, direction) == c
  {
  }

  lemma WarpKeepsCache(es: seq<Slot>, nextClk: Clock, nextIdx: int, amount: Clock, direction: int)
    requires IsCached(es, nextClk, nextIdx)
    ensures IsCached(ShiftedEntries(es, amount, direction), Shifted(nextClk, amount, direction), nextIdx)
            <==> WarpSafe(es, nextClk, nextIdx, amount, direction)
  {
    hide Shifted, Wraps;
    var ss, next := ShiftedEntries(es, amount, direction), Shifted(nextClk, amount, direction);
    ShiftedOrder(nextClk, nextClk, amount, direction);
    forall i | 0 <= i < |es|
      ensures next <= ss[i].clk <==> Wraps(nextClk, amount, direction) == Wraps(es[i].clk, amount, direction)
      ensures direction == 0 || amount == 0 ==> ss[i] == es[i]
    {
      ShiftedOrder(nextClk, es[i].clk, amount, direction);
      ShiftedOrder(es[i].clk, es[i].clk, amount, direction);
    }
    if direction == 0 || amount == 0 {
      assert ss == es;
    } else if es != [] {
      var k := if nextClk < NONE then nextIdx else 0;
      assert es[k].clk == nextClk;
      if forall i :: 0 <= i < |es| ==> next <= ss[i].clk {
        assert forall i :: 0 <= i < |es| ==> Wraps(nextClk, amount, direction) == Wraps(es[i].clk, amount, direction);
      } else {
        var i :| 0 <= i < |es| && !(next <= ss[i].clk);
        assert Wraps(es[i].clk, amount, direction) != Wraps(es[k].clk, amount, direction);
      }
    }
  }

  /** A warp shifts the clock of every pending alarm and nothing else. */
  lemma ShiftedMap(es: seq<Slot>, amount: Clock, direction: int)
    requires Distinct(es)
    ensures AsMap(ShiftedEntries(es, amount, direction))
         == map a | a in AsMap(es) :: Shifted(AsMap(es)[a], amount, direction)
  {
    hide Shifted, AsMap;
    var ss, m := ShiftedEntries(es, amount, direction), map a | a in AsMap(es) :: Shifted(AsMap(es)[a], amount, direction);
    forall i | 0 <= i < |es| ensures ss[i].alarm in m && m[ss[i].alarm] == ss[i].clk {
      MapHas(es, i);
    }
    forall a | a in m ensures exists i :: 0 <= i < |ss| && ss[i].alarm == a {
      var i := MapOnly(es, a);
      assert ss[i].alarm == a;
    }
    SameMap(ss, m);
  }

  lemma NoShift(es: seq<Slot>, amount: Clock)
    ensures ShiftedEntries(es, amount, 0) == es
  {
  }

  /** Two alarms stay in order exactly if both of them wrap or neither does. */
  lemma WarpKeepsOrder(es: seq<Slot>, amount: Clock, direction: int, i: nat, j: nat)
    requires i < |es| && j < |es|
    ensures var ss := ShiftedEntries(es, amount, direction);
            (es[i].clk <= es[j].clk <==> ss[i].clk <= ss[j].clk)
            <==> Wraps(es[i].clk, amount, direction) == Wraps(es[j].clk, amount, direction)
  {
    hide Shifted, Wraps;
    ShiftedOrder(es[i].clk, es[j].clk, amount, direction);
    ShiftedOrder(es[j].clk, es[i].clk, amount, direction);
  }

  lemma ShiftBack(c: Clock, amount: Clock, direction: int)
    ensures Shifted(Shifted(c, amount, direction), amount, -direction) == c
  {
  }

  /** A warp and its opposite cancel out, even when something wraps. */
  lemma WarpRoundTrip(es: seq<Slot>, amount: Clock, direction: int)
    ensures ShiftedEntries(ShiftedEntries(es, amount, direction), amount, -direction) == es
  {
    hide Shifted;
    forall i | 0 <= i < |es|
      ensures ShiftedSlot(ShiftedSlot(es[i], amount, direction), amount, -direction) == es[i]
    {
      ShiftBack(es[i].clk, amount, direction);
    }
  }

  /** With nothing pending a warp shifts the sentinel itself and the cache points nowhere. */
  method EmptyWarp(garbage: int) returns (context: AlarmContext)
    ensures fresh(context) && context.Linked() && context.Indexed() && context.Pending() == map[]
    ensures context.nextClk == NONE - 1 && !context.Cached()
  {
    context := new AlarmContext(garbage);
    context.TimeWarp(1, -1);
    assert context.Entries() == [];
  }

  /** Two alarms, at 5 and 20. */
  method TwoAlarms(garbage: int, callback: Callback) returns (context: AlarmContext, early: Alarm, late: Alarm)
    ensures fresh(context) && fresh(context.pendingAlarms) && context.Valid()
    ensures early != late && context.Pending() == map[early := 5, late := 20] && context.nextClk == 5
  {
    hide AlarmContext.Linked, AlarmContext.Indexed, AlarmContext.Cached, AsMap;
    context := new AlarmContext(garbage);
    late := context.New(callback);
    early := context.New(callback);
    context.Set(late, 20);
    context.Set(early, 5);
    context.PendingSummary();
    assert context.Pending()[early] == 5 && context.Pending()[late] == 20;
  }

  /** Of two alarms at 5 and 20 a warp back by 10 wraps the first only: it stays in the cache, with the other one due
      before it. */
  method PartialWarp(garbage: int, callback: Callback) returns (context: AlarmContext, early: Alarm, late: Alarm)
    ensures fresh(context) && context.Linked() && context.Indexed()
    ensures early != late && context.Pending() == map[early := 0xffff_fffb, late := 10]
    ensures context.nextClk == 0xffff_fffb && !context.Cached()
  {
    hide AlarmContext.Linked, AsMap, AlarmContext.Entries, ShiftedEntries, WarpSafe;
    context, early, late := TwoAlarms(garbage, callback);
    ghost var es := context.Entries();
    context.EntriesDistinct();
    ghost var i := MapOnly(es, early);
    ghost var j := MapOnly(es, late);
    MapHas(es, i);
    MapHas(es, j);
    UnsafeWarp(es, i, j, 5, context.nextIdx);
    context.TimeWarp(10, -1);
    ShiftedMap(es, 10, -1);
  }

  lemma UnsafeWarp(es: seq<Slot>, i: nat, j: nat, nextClk: Clock, nextIdx: int)
    requires i < |es| && j < |es| && es[i].clk == 5 && es[j].clk == 20
    ensures !WarpSafe(es, nextClk, nextIdx, 10, -1)
  {
    assert Wraps(es[i].clk, 10, -1) && !Wraps(es[j].clk, 10, -1);
  }
}
