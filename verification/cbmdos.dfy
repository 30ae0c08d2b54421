/** vice/src/cbmdos.c: the parser of CBM DOS open commands, the wildcard matcher and directory slots. */
module CbmDos {
  import opened Bits

  const OK := 0
  const INVAL := 31
  const NO_NAME := 34
  const OVERFLOW := 51

  const FT_SEQ := 1
  const FT_PRG := 2
  const FT_USR := 3
  const FT_REL := 4

  const FAM_READ := 0
  const FAM_WRITE := 1
  const FAM_APPEND := 2

  const NAME_LENGTH: nat := 16
  const PAD: Byte := 0xa0

  function Ch(c: char): Byte
    requires c as int < 0x100
  {
    c as int
  }

  // ---- the wildcard matcher ----

  /** A name without its padding. */
  function Unpadded(slot: seq<Byte>): seq<Byte> {
    if slot == [] || slot[0] == PAD then [] else [slot[0]] + Unpadded(slot[1..])
  }

  /** '*' matches the rest, '?' exactly one character, anything else itself. */
  predicate Matches(pattern: seq<Byte>, name: seq<Byte>) {
    if pattern == [] then name == []
    else if pattern[0] == Ch('*') then true
    else name != [] && (pattern[0] == Ch('?') || pattern[0] == name[0]) && Matches(pattern[1..], name[1..])
  }

  method WildcardCompare(name1: array<Byte>, name2: array<Byte>) returns (match_: bool)
    requires name1.Length == NAME_LENGTH && name2.Length == NAME_LENGTH
    ensures match_ == Matches(Unpadded(name1[..]), Unpadded(name2[..]))
  {
    var index := 0;
    while index < NAME_LENGTH
      invariant 0 <= index <= NAME_LENGTH
      invariant Matches(Unpadded(name1[..]), Unpadded(name2[..]))
             == Matches(Unpadded(name1[index..]), Unpadded(name2[index..]))
    {
      assert name1[index..][1..] == name1[index + 1..] && name2[index..][1..] == name2[index + 1..];
      if name1[index] == Ch('*') {
        return true;
      } else if name1[index] == Ch('?') {
        if name2[index] == PAD {
          return false;
        }
      } else if name1[index] == PAD {
        return name2[index] == PAD;
      } else if name1[index] != name2[index] {
        return false;
      }
      index := index + 1;
    }
    return true;
  }

  predicate IsWildcard(b: Byte) {
    b == Ch('*') || b == Ch('?')
  }

  method WildcardCheck(name: array<Byte>, len: nat) returns (found: bool)
    requires len <= name.Length
    ensures found <==> exists i :: 0 <= i < len && IsWildcard(name[i])
  {
    var index := 0;
    while index < len
      invariant 0 <= index <= len
      invariant forall i :: 0 <= i < index ==> !IsWildcard(name[i])
    {
      if name[index] == Ch('*') || name[index] == Ch('?') {
        return true;
      }
      index := index + 1;
    }
    return false;
  }

  function Truncated(name: seq<Byte>): seq<Byte> {
    if |name| > NAME_LENGTH then name[..NAME_LENGTH] else name
  }

  function Slot(name: seq<Byte>): seq<Byte> {
    Truncated(name) + seq(NAME_LENGTH - |Truncated(name)|, _ => PAD)
  }

  method DirSlotCreate(name: array<Byte>, length: nat) returns (slot: array<Byte>)
    requires length <= name.Length
    ensures fresh(slot) && slot[..] == Slot(name[..length])
  {
    var len := length;
    if len > NAME_LENGTH {
      len := NAME_LENGTH;
    }
    slot := new Byte[NAME_LENGTH](_ => PAD);
    forall i | 0 <= i < len {
      slot[i] := name[i];
    }
    assert name[..length][..len] == name[..len];
  }

  /** Plain names: what a file can be called without upsetting slots and patterns. */
  predicate Plain(name: seq<Byte>) {
    forall i :: 0 <= i < |name| ==> !IsWildcard(name[i]) && name[i] != PAD
  }

  lemma {:induction false} UnpaddedSlot(name: seq<Byte>, n: nat)
    requires Plain(name)
    ensures Unpadded(name + seq(n, _ => PAD)) == name
    decreases |name|
  {
    if name != [] {
      assert (name + seq(n, _ => PAD))[1..] == name[1..] + seq(n, _ => PAD);
      UnpaddedSlot(name[1..], n);
    }
  }

  lemma {:induction false} PlainMatch(a: seq<Byte>, b: seq<Byte>)
    requires Plain(a)
    ensures Matches(a, b) <==> a == b
  {
    if a != [] && b != [] {
      PlainMatch(a[1..], b[1..]);
    }
  }

  /** Slots of plain names match exactly when the first sixteen characters are equal. */
  lemma SlotsMatch(a: seq<Byte>, b: seq<Byte>)
    requires Plain(a) && Plain(b)
    ensures Matches(Unpadded(Slot(a)), Unpadded(Slot(b))) <==> Truncated(a) == Truncated(b)
  {
    UnpaddedSlot(Truncated(a), NAME_LENGTH - |Truncated(a)|);
    UnpaddedSlot(Truncated(b), NAME_LENGTH - |Truncated(b)|);
    PlainMatch(Truncated(a), Truncated(b));
  }

  // ---- the command parser: specification ----

  /** The byte at an index; behind the command there is a NUL. */
  function At(s: seq<Byte>, i: nat): Byte {
    if i < |s| then s[i] else 0
  }

  /** memchr: the first occurrence at or after from, or the end. */
  function Find(s: seq<Byte>, b: Byte, from: nat): (i: nat)
    requires from <= |s|
    ensures from <= i <= |s| && (i < |s| ==> s[i] == b) && forall j :: from <= j < i ==> s[j] != b
    decreases |s| - from
  {
    if from == |s| || s[from] == b then from else Find(s, b, from + 1)
  }

  lemma FindNext(s: seq<Byte>, b: Byte, from: nat)
    requires from < |s| && s[from] != b
    ensures Find(s, b, from) == Find(s, b, from + 1)
  {
  }

  lemma FindHere(s: seq<Byte>, b: Byte, from: nat)
    requires from <= |s| && (from < |s| ==> s[from] == b)
    ensures Find(s, b, from) == from
  {
  }

  /** What the options behind the name set, and the code the parser returns with. */
  datatype Options = Options(code: int, filetype: int, readmode: int, recordlength: int)

  /** One option at p: its letter's effect, and where the search for the next comma starts. */
  function Option(s: seq<Byte>, p: nat, o: Options): (Options, nat)
    requires p < |s|
  {
    var b := s[p];
    if b == Ch('S') then (o.(filetype := FT_SEQ), p)
    else if b == Ch('P') then (o.(filetype := FT_PRG), p)
    else if b == Ch('U') then (o.(filetype := FT_USR), p)
    else if b == Ch('L') && At(s, p + 1) == Ch(',') then
      var rl := At(s, p + 2);
      (if 2 <= rl <= 254 then o.(filetype := FT_REL, recordlength := rl) else o.(code := OVERFLOW, recordlength := rl),
       p + 3)
    else if b == Ch('L') then (o.(filetype := FT_REL), p)
    else if b == Ch('R') then (o.(readmode := FAM_READ), p)
    else if b == Ch('W') then (o.(readmode := FAM_WRITE), p)
    else if b == Ch('A') then (o.(readmode := FAM_APPEND), p)
    else if o.readmode != FAM_READ && o.readmode != FAM_WRITE then (o.(code := INVAL), p)
    else (o, p)
  }

  lemma OptionBounds(s: seq<Byte>, p: nat, o: Options)
    requires p < |s| && o.code == OK
    ensures Option(s, p, o).0.code == OK ==> p <= Option(s, p, o).1 <= |s|
  {
  }

  /** All options from a comma, or the end, on. */
  function Parsed(s: seq<Byte>, comma: nat, o: Options): Options
    requires comma <= |s| && o.code == OK
    decreases |s| - comma
  {
    if comma == |s| then o
    else if comma + 1 == |s| then o.(code := INVAL)
    else
      OptionBounds(s, comma + 1, o);
      var (q, next) := Option(s, comma + 1, o);
      if q.code != OK then q else Parsed(s, Find(s, Ch(','), next), q)
  }

  /** The part of the name that selects a drive ends with the first colon. */
  function NameStart(s: seq<Byte>): nat {
    var colon := Find(s, Ch(':'), 0);
    if colon < |s| then colon + 1 else 0
  }

  function DriveOf(s: seq<Byte>, drive: int): int {
    var colon := Find(s, Ch(':'), 0);
    if 0 < colon < |s| && (s[colon - 1] == Ch('0') || s[colon - 1] == Ch('1')) then s[colon - 1] - Ch('0') else drive
  }

  predicate IsDriveDigit(b: Byte) {
    b == Ch('0') || b == Ch('1')
  }

  /** Where the colon of a directory command would be: behind the drive digit, if there is one. */
  function DirectoryColon(s: seq<Byte>): nat {
    if IsDriveDigit(At(s, 1)) then 2 else 1
  }

  /** The pattern of a directory command. */
  function DirectoryStart(s: seq<Byte>): nat {
    var c := DirectoryColon(s);
    if At(s, c) == Ch(':') then c + 1 else c
  }

  function DirectoryDrive(s: seq<Byte>, drive: int): int {
    if IsDriveDigit(At(s, 1)) then At(s, 1) - Ch('0') else drive
  }

  /** An empty pattern behind a colon is made to match nothing: the NUL behind the command counts. */
  function DirectoryText(s: seq<Byte>): seq<Byte> {
    var c := DirectoryColon(s);
    if At(s, c) == Ch(':') && At(s, c + 1) == 0 then s + [0] else s
  }

  function FirstMode(secondary: nat): int {
    if secondary == 1 then FAM_WRITE else FAM_READ
  }

  function FirstType(secondary: nat): int {
    if secondary < 2 then FT_PRG else 0
  }

  /** LOAD and SAVE channels have their own mode. */
  function LastMode(secondary: nat, mode: int): int {
    if secondary == 0 then FAM_READ else if secondary == 1 then FAM_WRITE else mode
  }

  // ---- the command parser ----

  class CommandParse {
    /** Input: the command, with a NUL behind its last byte. */
    var cmd: array?<Byte>
    var cmdlength: nat
    var secondary: nat
    var parsecmd: seq<Byte>
    var parselength: nat
    var readmode: int
    var filetype: int
    var recordlength: int
    var drive: int

    constructor (cmd: array?<Byte>, cmdlength: nat, secondary: nat)
      ensures this.cmd == cmd && this.cmdlength == cmdlength && this.secondary == secondary
      ensures drive == 0 && recordlength == 0
    {
      this.cmd, this.cmdlength, this.secondary := cmd, cmdlength, secondary;
      parsecmd, parselength, readmode, filetype, recordlength, drive := [], 0, 0, 0, 0, 0;
    }

    /** The buffer holds the command and a NUL; a directory command may count that NUL as its last byte, and then needs
        another one. */
    predicate Buffer()
      reads this, cmd
    {
      cmd != null ==>
        cmd.Length > cmdlength && cmd[cmdlength] == 0
        && (cmd[0] == Ch('$') ==> cmd.Length > cmdlength + 1 && cmd[cmdlength + 1] == 0)
    }

    /** The command. */
    function Text(): (s: seq<Byte>)
      requires cmd != null && cmd.Length > cmdlength
      reads this, cmd
      ensures |s| == cmdlength
    {
      cmd[..cmdlength]
    }

    ghost function Opts(code: int): Options
      reads `filetype, `readmode, `recordlength
    {
      Options(code, filetype, readmode, recordlength)
    }

    /** A directory command: drive, colon and an empty pattern after it. */
    method DirectoryPattern() returns (p: nat)
      requires Buffer() && cmd != null && cmdlength > 0 && cmd[0] == Ch('$')
      modifies `drive, `cmdlength
      ensures p <= cmdlength < cmd.Length && cmd[cmdlength] == 0
      ensures p == DirectoryStart(old(Text())) && drive == DirectoryDrive(old(Text()), old(drive))
      ensures Text() == DirectoryText(old(Text()))
    {
      if cmdlength > 1 {
        p := 1;
        if cmd[p] == Ch('0') || cmd[p] == Ch('1') {
          drive := cmd[p] - Ch('0');
          p := p + 1;
        }
        if cmd[p] == Ch(':') {
          p := p + 1;
          if cmd[p] == 0 {
            cmdlength := cmdlength + 1;
          }
        }
      } else {
        p := 1;
      }
    }

    /** The pattern of any other command starts behind the first colon. */
    method FilePattern() returns (p: nat)
      requires Buffer() && cmd != null && cmdlength > 0
      modifies `drive
      ensures p == NameStart(Text()) <= cmdlength && drive == DriveOf(Text(), old(drive))
    {
      p := Find(cmd[..cmdlength], Ch(':'), 0);
      if p < cmdlength {
        if p == 0 {
        } else {
          if cmd[p - 1] == Ch('0') || cmd[p - 1] == Ch('1') {
            drive := cmd[p - 1] - Ch('0');
          }
        }
        p := p + 1;
      } else {
        p := 0;
      }
    }

    /** The bytes up to the first comma; cmdlen is what is left of the command from there on. */
    method CopyName(start: nat) returns (p: nat, cmdlen: int)
      requires cmd != null && cmd.Length > cmdlength && start <= cmdlength
      modifies `parsecmd, `parselength
      ensures p == Find(Text(), Ch(','), start)
      ensures parsecmd == Text()[start..p] && parselength == p - start
      ensures if p < cmdlength then cmdlen == cmdlength - p else cmdlen <= 0
    {
      hide Find;
      ghost var s := Text();
      p := start;
      cmdlen := cmdlength - p;
      parselength := 0;
      parsecmd := [];
      while cmd[p] != Ch(',') && cmdlen > 0
        invariant start <= p <= cmdlength && cmdlen == cmdlength - p
        invariant parsecmd == s[start..p] && parselength == p - start
        invariant Find(s, Ch(','), start) == Find(s, Ch(','), p)
        decreases cmdlen
      {
        FindNext(s, Ch(','), p);
        assert s[start..p + 1] == s[start..p] + [s[p]];
        cmdlen := cmdlen - 1;
        parselength := parselength + 1;
        parsecmd := parsecmd + [cmd[p]];
        p := p + 1;
      }
      FindHere(s, Ch(','), p);
      if cmd[p] != Ch(',') {
        cmdlen := cmdlen - 1;
      }
    }

    /** The switch over an option letter; p moves behind a record length. */
    method OneOption(start: nat) returns (code: int, p: nat)
      requires cmd != null && cmd.Length > cmdlength && cmd[cmdlength] == 0 && start < cmdlength
      modifies `filetype, `readmode, `recordlength
      ensures Opts(code) == Option(Text(), start, old(Opts(OK))).0
      ensures code == OK ==> p == Option(Text(), start, old(Opts(OK))).1
    {
      p := start;
      code := OK;
      var b := cmd[p];
      if b == Ch('S') {
        filetype := FT_SEQ;
      } else if b == Ch('P') {
        filetype := FT_PRG;
      } else if b == Ch('U') {
        filetype := FT_USR;
      } else if b == Ch('L') {
        if cmd[p + 1] == Ch(',') {
          recordlength := cmd[p + 2];
          if recordlength < 2 || recordlength > 254 {
            code := OVERFLOW;
            return;
          }
          p := p + 3;
        }
        filetype := FT_REL;
      } else if b == Ch('R') {
        readmode := FAM_READ;
      } else if b == Ch('W') {
        readmode := FAM_WRITE;
      } else if b == Ch('A') {
        readmode := FAM_APPEND;
      } else {
        if readmode != FAM_READ && readmode != FAM_WRITE {
          code := INVAL;
        }
      }
    }

    /** The loop over the options.  The remaining length never goes below zero and strictly decreases. */
    method ParseOptions(comma: nat, left: int) returns (code: int)
      requires cmd != null && cmd.Length > cmdlength && comma <= cmdlength
      requires if comma < cmdlength then left == cmdlength - comma && cmd[cmdlength] == 0 else left <= 0
      modifies `filetype, `readmode, `recordlength
      ensures Opts(code) == Parsed(Text(), comma, old(Opts(OK)))
    {
      var p, cmdlen := comma, left;
      ghost var s, o := Text(), Opts(OK);
      while cmdlen > 0
        invariant p <= cmdlength && (cmdlen > 0 ==> cmdlen == cmdlength - p && cmd[cmdlength] == 0)
        invariant comma < cmdlength ==> cmdlen >= 0
        invariant Parsed(s, comma, o) == if cmdlen > 0 then Parsed(s, p, Opts(OK)) else Opts(OK)
        decreases cmdlen
      {
        cmdlen := cmdlen - 1;
        p := p + 1;
        if cmdlen == 0 {
          return INVAL;
        }
        ghost var q := Opts(OK);
        OptionBounds(s, p, q);
        var next;
        code, next := OneOption(p);
        if code != OK {
          return;
        }
        cmdlen := cmdlen - (next - p);
        p := next;
        var c := Find(cmd[..cmdlength], Ch(','), p);
        if c < cmdlength {
          cmdlen := cmdlen - (c - p);
          p := c;
        } else {
          cmdlen := 0;
        }
      }
      return OK;
    }

    method Parse() returns (code: int)
      requires Buffer()
      modifies this
      ensures cmd == old(cmd) && secondary == old(secondary)
      ensures cmd == null || old(cmdlength) == 0 ==> code == NO_NAME && parsecmd == []
      ensures cmd != null && old(cmdlength) > 0 && cmd[0] != Ch('$') ==>
                cmdlength == old(cmdlength) && drive == DriveOf(Text(), old(drive))
                && Result(code, NameStart(Text()), old(recordlength))
      ensures old(cmd != null && cmdlength > 0 && cmd[0] == Ch('$')) ==>
                cmdlength < cmd.Length && Text() == old(DirectoryText(cmd[..cmdlength]))
                && drive == old(DirectoryDrive(cmd[..cmdlength], drive))
                && DirectoryStart(old(cmd[..cmdlength])) <= cmdlength
                && Result(code, DirectoryStart(old(cmd[..cmdlength])), old(recordlength))
    {
      hide CommandParse.Result, DirectoryText, DirectoryStart, DirectoryDrive, NameStart, DriveOf;
      parsecmd := [];
      readmode := if secondary == 1 then FAM_WRITE else FAM_READ;
      if cmd == null || cmdlength == 0 {
        return NO_NAME;
      }
      var p;
      if cmd[0] == Ch('$') {
        p := DirectoryPattern();
      } else {
        p := FilePattern();
      }
      code := ParsePattern(p);
    }

    /** From the pattern to the end. */
    method ParsePattern(start: nat) returns (code: int)
      requires cmd != null && cmd.Length > cmdlength && cmd[cmdlength] == 0 && start <= cmdlength
      requires readmode == FirstMode(secondary)
      modifies `parsecmd, `parselength, `filetype, `readmode, `recordlength
      ensures Result(code, start, old(recordlength))
    {
      hide Find, Parsed;
      var p, cmdlen := CopyName(start);
      filetype := if secondary < 2 then FT_PRG else 0;
      code := ParseOptions(p, cmdlen);
      if code != OK {
        return;
      }
      if secondary == 0 {
        readmode := FAM_READ;
      }
      if secondary == 1 {
        readmode := FAM_WRITE;
      }
    }

    /** What a command whose pattern begins at start is parsed into. */
    ghost predicate Result(code: int, start: nat, recordlength': int)
      requires cmd != null && cmd.Length > cmdlength && start <= cmdlength
      reads this, cmd
    {
      var s := Text();
      var comma := Find(s, Ch(','), start);
      var o := Parsed(s, comma, Options(OK, FirstType(secondary), FirstMode(secondary), recordlength'));
      parsecmd == s[start..comma] && parselength == comma - start
      && code == o.code && filetype == o.filetype && recordlength == o.recordlength
      && readmode == if code == OK then LastMode(secondary, o.readmode) else o.readmode
    }
  }

  // ---- round trip ----

  datatype FileType = Seq | Prg | Usr | Rel(length: Byte)

  function TypeText(t: FileType): seq<Byte> {
    match t
    case Seq => [Ch('S')]
    case Prg => [Ch('P')]
    case Usr => [Ch('U')]
    case Rel(n) => [Ch('L'), Ch(','), n]
  }

  function TypeCode(t: FileType): int {
    match t
    case Seq => FT_SEQ
    case Prg => FT_PRG
    case Usr => FT_USR
    case Rel(_) => FT_REL
  }

  function ModeText(mode: int): Byte {
    if mode == FAM_READ then Ch('R') else if mode == FAM_WRITE then Ch('W') else Ch('A')
  }

  /** drive:name,type,mode */
  function Printed(drive: int, name: seq<Byte>, t: FileType, mode: int): seq<Byte>
    requires drive == 0 || drive == 1
  {
    [Ch('0') + drive, Ch(':')] + name + [Ch(',')] + TypeText(t) + [Ch(','), ModeText(mode)]
  }

  predicate NoComma(name: seq<Byte>) {
    forall i :: 0 <= i < |name| ==> name[i] != Ch(',')
  }

  lemma FindIs(s: seq<Byte>, b: Byte, from: nat, i: nat)
    requires from <= i <= |s| && (forall j :: from <= j < i ==> s[j] != b) && (i < |s| ==> s[i] == b)
    ensures Find(s, b, from) == i
  {
  }

  lemma ModeParsed(s: seq<Byte>, comma: nat, o: Options, mode: int)
    requires comma + 2 == |s| && s[comma] == Ch(',') && s[comma + 1] == ModeText(mode) && o.code == OK
    requires mode == FAM_READ || mode == FAM_WRITE || mode == FAM_APPEND
    ensures Parsed(s, comma, o) == o.(readmode := mode)
  {
    FindIs(s, Ch(','), comma + 1, |s|);
  }

  /** Where the parts of a printed command are. */
  lemma PrintedParts(drive: int, name: seq<Byte>, t: FileType, mode: int)
    requires drive == 0 || drive == 1
    ensures var s, c, n := Printed(drive, name, t, mode), 2 + |name|, |TypeText(t)|;
            |s| == c + n + 3 && s[0] == Ch('0') + drive && s[1] == Ch(':') && s[2..c] == name && s[c] == Ch(',')
            && s[c + 1..c + 1 + n] == TypeText(t) && s[c + 1 + n] == Ch(',') && s[c + 2 + n] == ModeText(mode)
  {
    var s, c, n := Printed(drive, name, t, mode), 2 + |name|, |TypeText(t)|;
    var front := [Ch('0') + drive, Ch(':')];
    assert s == front + (name + ([Ch(',')] + (TypeText(t) + [Ch(','), ModeText(mode)])));
  }

  /** The type option, from the comma in front of it. */
  lemma TypeParsed(s: seq<Byte>, c: nat, t: FileType, mode: int, o: Options)
    requires c + |TypeText(t)| + 3 == |s| && s[c] == Ch(',') && s[c + 1..c + 1 + |TypeText(t)|] == TypeText(t)
    requires s[c + 1 + |TypeText(t)|] == Ch(',') && s[c + 2 + |TypeText(t)|] == ModeText(mode)
    requires (t.Rel? ==> 2 <= t.length <= 254) && o.code == OK
    requires mode == FAM_READ || mode == FAM_WRITE || mode == FAM_APPEND
    ensures Parsed(s, c, o) == Options(OK, TypeCode(t), mode, if t.Rel? then t.length else o.recordlength)
  {
    hide Find, ModeText;
    var text := TypeText(t);
    var last := c + 1 + |text|;
    assert forall i :: 0 <= i < |text| ==> s[c + 1 + i] == text[i];
    assert s[c + 1] == text[0];
    if t.Rel? {
      assert s[c + 2] == text[1] && s[c + 3] == text[2];
      FindIs(s, Ch(','), c + 4, last);
    } else {
      FindIs(s, Ch(','), c + 1, last);
    }
    ModeParsed(s, last, Option(s, c + 1, o).0, mode);
  }

  /** Parsing what has been printed gives back drive, name, type, record length and mode. */
  lemma ParsePrinted(drive: int, name: seq<Byte>, t: FileType, mode: int, secondary: nat, oldDrive: int, oldLength: int)
    requires (drive == 0 || drive == 1) && NoComma(name) && secondary >= 2
    requires t.Rel? ==> 2 <= t.length <= 254
    requires mode == FAM_READ || mode == FAM_WRITE || mode == FAM_APPEND
    ensures var s := Printed(drive, name, t, mode);
            var start := NameStart(s);
            var comma := Find(s, Ch(','), start);
            var o := Parsed(s, comma, Options(OK, FirstType(secondary), FirstMode(secondary), oldLength));
            s[start..comma] == name && DriveOf(s, oldDrive) == drive
            && o == Options(OK, TypeCode(t), mode, if t.Rel? then t.length else oldLength)
            && LastMode(secondary, o.readmode) == mode
  {
    hide Find, Printed, Parsed, TypeText, ModeText;
    var s, comma := Printed(drive, name, t, mode), 2 + |name|;
    PrintedParts(drive, name, t, mode);
    assert forall j :: 2 <= j < comma ==> s[j] == s[2..comma][j - 2];
    FindIs(s, Ch(':'), 0, 1);
    FindIs(s, Ch(','), 2, comma);
    TypeParsed(s, comma, t, mode, Options(OK, FirstType(secondary), FirstMode(secondary), oldLength));
  }
}
