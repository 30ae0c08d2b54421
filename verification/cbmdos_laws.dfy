/** What the command parser makes of the texts that programs send: commands are printed from their parts, and parsing them
    gives the parts back. */
module CbmDosLaws {
  import opened Bits
  import opened CbmDos

  // ---- options ----

  /** An option is a letter and perhaps more of its word; L may be followed by a record length. */
  datatype Opt =
    | OfType(t: FileType, rest: seq<Byte>) | Known(rest: seq<Byte>) | OfMode(mode: int, rest: seq<Byte>)
    | Unknown(letter: Byte, rest: seq<Byte>)

  predicate IsLetter(b: Byte) {
    b == Ch('S') || b == Ch('P') || b == Ch('U') || b == Ch('L') || b == Ch('R') || b == Ch('W') || b == Ch('A')
  }

  predicate IsMode(mode: int) {
    mode == FAM_READ || mode == FAM_WRITE || mode == FAM_APPEND
  }

  /** Words end at the next comma; an L without a length is told by the rest of its word. */
  predicate IsOpt(o: Opt) {
    NoComma(o.rest) && (o.Known? ==> o.rest != []) && (o.OfMode? ==> IsMode(o.mode))
    && (o.Unknown? ==> !IsLetter(o.letter) && o.letter != Ch(','))
  }

  function OptText(o: Opt): seq<Byte> {
    match o
    case OfType(t, rest) => TypeText(t) + rest
    case Known(rest) => [Ch('L')] + rest
    case OfMode(mode, rest) => [ModeText(mode)] + rest
    case Unknown(letter, rest) => [letter] + rest
  }

  /** Every option behind a comma; a comma may be the last byte. */
  function OptsText(opts: seq<Opt>, trailing: bool): seq<Byte> {
    if opts == [] then (if trailing then [Ch(',')] else []) else [Ch(',')] + OptText(opts[0]) + OptsText(opts[1..], trailing)
  }

  /** What one option asks for: a type, a record length, which must be from 2 to 254, or a mode.  Other letters are
      ignored, except behind an A. */
  function Asked(o: Options, opt: Opt): Options {
    match opt
    case OfType(Rel(n), _) =>
      if 2 <= n <= 254 then o.(filetype := FT_REL, recordlength := n) else o.(code := OVERFLOW, recordlength := n)
    case OfType(t, _) => o.(filetype := TypeCode(t))
    case Known(_) => o.(filetype := FT_REL)
    case OfMode(mode, _) => o.(readmode := mode)
    case Unknown(_, _) => if o.readmode == FAM_APPEND then o.(code := INVAL) else o
  }

  /** All of them in order, up to the first that is wrong; a comma with nothing behind it is wrong. */
  function AllAsked(o: Options, opts: seq<Opt>, trailing: bool): Options
    decreases |opts|
  {
    if o.code != OK then o
    else if opts == [] then (if trailing then o.(code := INVAL) else o)
    else AllAsked(Asked(o, opts[0]), opts[1..], trailing)
  }

  lemma OneOpt(s: seq<Byte>, p: nat, o: Options, opt: Opt)
    requires IsOpt(opt) && o.code == OK && IsMode(o.readmode)
    requires p + |OptText(opt)| <= |s| && s[p..p + |OptText(opt)|] == OptText(opt) && p < |s|
    ensures Option(s, p, o).0 == Asked(o, opt)
    ensures Option(s, p, o).0.code == OK ==>
              p <= Option(s, p, o).1 <= p + |OptText(opt)|
              && forall j :: Option(s, p, o).1 <= j < p + |OptText(opt)| ==> s[j] != Ch(',')
  {
    var text := OptText(opt);
    forall i | 0 <= i < |text| ensures s[p + i] == text[i] {
      assert s[p..p + |text|][i] == text[i];
    }
    RestLast(opt);
    assert |text| > 0;
    if opt.OfType? && opt.t.Rel? {
      assert |text| >= 3 && text[0] == Ch('L') && text[1] == Ch(',') && text[2] == opt.t.length;
      assert s[p + 0] == Ch('L') && s[p + 1] == Ch(',') && s[p + 2] == opt.t.length;
    } else if opt.Known? {
      assert s[p + 0] == Ch('L') && s[p + 1] == opt.rest[0];
    } else {
      assert s[p + 0] == text[0];
    }
    hide OptText;
  }

  lemma RestLast(o: Opt)
    ensures var text, skip := OptText(o), |OptText(o)| - |o.rest|;
            1 <= skip && (o.OfType? && o.t.Rel? ==> skip == 3) && (!(o.OfType? && o.t.Rel?) ==> skip == 1)
            && forall i :: skip <= i < |text| ==> text[i] == o.rest[i - skip]
  {
  }

  /** The tail of a command that consists of options. */
  lemma {:induction false} OptionsParsed(s: seq<Byte>, c: nat, o: Options, opts: seq<Opt>, trailing: bool)
    requires c <= |s| && s[c..] == OptsText(opts, trailing) && o.code == OK && IsMode(o.readmode)
    requires forall i :: 0 <= i < |opts| ==> IsOpt(opts[i])
    ensures Parsed(s, c, o) == AllAsked(o, opts, trailing)
    decreases |opts|
  {
    hide Find;
    if opts == [] {
      assert |s| == c + |OptsText(opts, trailing)|;
    } else {
      var text, tail := OptText(opts[0]), OptsText(opts[1..], trailing);
      var next := c + 1 + |text|;
      OptParts(s, c, opts, trailing);
      OneOpt(s, c + 1, o, opts[0]);
      TailBegins(opts[1..], trailing);
      AskedMode(o, opts[0]);
      hide OptText, OptsText, IsOpt, Option, Asked;
      var (q, from) := Option(s, c + 1, o);
      if q.code == OK {
        assert next < |s| ==> s[next] == tail[0];
        FindIs(s, Ch(','), from, next);
        OptionsParsed(s, next, q, opts[1..], trailing);
      }
    }
  }

  lemma OptParts(s: seq<Byte>, c: nat, opts: seq<Opt>, trailing: bool)
    requires opts != [] && c <= |s| && s[c..] == OptsText(opts, trailing)
    ensures var text, tail := OptText(opts[0]), OptsText(opts[1..], trailing);
            |s| == c + 1 + |text| + |tail| && |text| > 0 && s[c] == Ch(',') && s[c + 1..c + 1 + |text|] == text
            && s[c + 1 + |text|..] == tail
  {
    hide OptText, OptsText;
    OptsCons(opts, trailing);
    Cut(s, c, Ch(','), OptText(opts[0]), OptsText(opts[1..], trailing));
    LetterFirst(opts[0]);
  }

  lemma OptsCons(opts: seq<Opt>, trailing: bool)
    requires opts != []
    ensures OptsText(opts, trailing) == [Ch(',')] + OptText(opts[0]) + OptsText(opts[1..], trailing)
  {
  }

  lemma LetterFirst(o: Opt)
    ensures |OptText(o)| > 0
  {
  }

  lemma Cut(s: seq<Byte>, c: nat, b: Byte, text: seq<Byte>, tail: seq<Byte>)
    requires c <= |s| && s[c..] == [b] + text + tail
    ensures |s| == c + 1 + |text| + |tail| && s[c] == b && s[c + 1..c + 1 + |text|] == text && s[c + 1 + |text|..] == tail
  {
    var all := [b] + text + tail;
    assert s[c] == all[0];
    assert all[1..1 + |text|] == text && all[1 + |text|..] == tail;
    assert s[c + 1..c + 1 + |text|] == s[c..][1..1 + |text|];
    assert s[c + 1 + |text|..] == s[c..][1 + |text|..];
  }

  lemma TailBegins(opts: seq<Opt>, trailing: bool)
    ensures var tail := OptsText(opts, trailing); tail != [] ==> tail[0] == Ch(',')
  {
  }

  lemma AskedMode(o: Options, opt: Opt)
    requires IsOpt(opt) && IsMode(o.readmode)
    ensures IsMode(Asked(o, opt).readmode)
  {
  }

  // ---- names ----

  /** The name alone, or behind a colon with anything in front of it. */
  datatype Head = Bare(name: seq<Byte>) | Behind(front: seq<Byte>, name: seq<Byte>)

  predicate NoColon(text: seq<Byte>) {
    forall i :: 0 <= i < |text| ==> text[i] != Ch(':')
  }

  function HeadText(h: Head): seq<Byte> {
    match h
    case Bare(name) => name
    case Behind(front, name) => front + [Ch(':')] + name
  }

  /** The byte in front of the colon selects the drive if it is 0 or 1. */
  function Selected(h: Head, drive: int): int {
    if h.Bare? || h.front == [] then drive
    else if h.front[|h.front| - 1] == Ch('0') then 0
    else if h.front[|h.front| - 1] == Ch('1') then 1
    else drive
  }

  /** A bare name needs a command without any colon, be it a record length. */
  predicate IsHead(h: Head, tail: seq<Byte>) {
    NoComma(h.name) && (if h.Bare? then NoColon(h.name + tail) else NoColon(h.front))
  }

  /** The name comes back, and the drive. */
  lemma HeadParsed(h: Head, tail: seq<Byte>, drive: int)
    requires IsHead(h, tail) && (tail != [] ==> tail[0] == Ch(','))
    ensures var s := HeadText(h) + tail;
            var start := NameStart(s);
            Find(s, Ch(','), start) == |HeadText(h)| && start + |h.name| == |HeadText(h)|
            && s[start..|HeadText(h)|] == h.name && DriveOf(s, drive) == Selected(h, drive)
  {
    ColonFound(h, tail, drive);
    hide Find, NameStart, DriveOf, Selected;
    NameLast(h);
    CommaFound(HeadText(h), h.name, tail);
  }

  lemma CommaFound(head: seq<Byte>, name: seq<Byte>, tail: seq<Byte>)
    requires |head| >= |name| && head[|head| - |name|..] == name && NoComma(name) && (tail != [] ==> tail[0] == Ch(','))
    ensures var s, start := head + tail, |head| - |name|;
            Find(s, Ch(','), start) == |head| && s[start..|head|] == name
  {
    hide Find;
    var s, start := head + tail, |head| - |name|;
    assert s[start..|head|] == head[start..];
    forall j | start <= j < |head| ensures s[j] != Ch(',') {
      assert s[start..|head|][j - start] == name[j - start];
    }
    FindIs(s, Ch(','), start, |head|);
  }

  lemma NameLast(h: Head)
    ensures |HeadText(h)| >= |h.name| && HeadText(h)[|HeadText(h)| - |h.name|..] == h.name
  {
  }

  lemma ColonFound(h: Head, tail: seq<Byte>, drive: int)
    requires IsHead(h, tail)
    ensures var s := HeadText(h) + tail;
            NameStart(s) == |HeadText(h)| - |h.name| && DriveOf(s, drive) == Selected(h, drive)
  {
    hide Find;
    var s := HeadText(h) + tail;
    if h.Bare? {
      FindIs(s, Ch(':'), 0, |s|);
    } else {
      assert s == h.front + ([Ch(':')] + h.name + tail);
      assert s[|h.front|] == Ch(':');
      FindIs(s, Ch(':'), 0, |h.front|);
    }
  }

  /** A command that is no directory, from its parts. */
  datatype Command = Command(head: Head, opts: seq<Opt>, trailing: bool)

  function CommandText(c: Command): seq<Byte> {
    HeadText(c.head) + OptsText(c.opts, c.trailing)
  }

  predicate IsCommand(c: Command) {
    IsHead(c.head, OptsText(c.opts, c.trailing)) && forall i :: 0 <= i < |c.opts| ==> IsOpt(c.opts[i])
  }

  /** LOAD and SAVE, secondary addresses 0 and 1, read and write programs unless a type is given; other channels read
      unless a mode is given. */
  function Wanted(c: Command, secondary: nat, length: int): Options {
    var o := AllAsked(Options(OK, if secondary == 0 || secondary == 1 then FT_PRG else 0,
                              if secondary == 1 then FAM_WRITE else FAM_READ, length), c.opts, c.trailing);
    if o.code != OK then o
    else if secondary == 0 then o.(readmode := FAM_READ)
    else if secondary == 1 then o.(readmode := FAM_WRITE)
    else o
  }

  lemma CommandParsed(c: Command, secondary: nat, drive: int, length: int)
    requires IsCommand(c)
    ensures var s := CommandText(c);
            var start := NameStart(s);
            var comma := Find(s, Ch(','), start);
            var o := Parsed(s, comma, Options(OK, FirstType(secondary), FirstMode(secondary), length));
            s[start..comma] == c.head.name && DriveOf(s, drive) == Selected(c.head, drive)
            && (if o.code == OK then o.(readmode := LastMode(secondary, o.readmode)) else o) == Wanted(c, secondary, length)
  {
    hide Find, Parsed, OptsText, HeadText, NameStart, DriveOf, IsHead, Selected;
    var tail := OptsText(c.opts, c.trailing);
    TailBegins(c.opts, c.trailing);
    HeadParsed(c.head, tail, drive);
    var s := CommandText(c);
    assert s[|HeadText(c.head)|..] == tail;
    OptionsParsed(s, |HeadText(c.head)|, Options(OK, FirstType(secondary), FirstMode(secondary), length), c.opts, c.trailing);
  }

  /** What the parser gets out of a command is what went into it. */
  method ParseCommand(p: CommandParse, c: Command) returns (code: int)
    requires p.Buffer() && p.cmd != null && p.cmd.Length > p.cmdlength > 0 && p.cmd[0] != Ch('$')
    requires IsCommand(c) && p.Text() == CommandText(c)
    modifies p
    ensures p.parsecmd == c.head.name && p.parselength == |c.head.name| && p.drive == Selected(c.head, old(p.drive))
    ensures Options(code, p.filetype, p.readmode, p.recordlength) == Wanted(c, p.secondary, old(p.recordlength))
  {
    hide Find, Parsed, CommandText, IsCommand, NameStart, DriveOf, Wanted, Selected;
    CommandParsed(c, p.secondary, p.drive, p.recordlength);
    code := p.Parse();
  }

  /** In particular the name alone, and the name with a type and a mode. */
  lemma PlainCommands(name: seq<Byte>, t: FileType, mode: int)
    requires NoComma(name) && NoColon(name) && IsMode(mode) && !t.Rel?
    ensures var c := Command(Bare(name), [], false);
            IsCommand(c) && CommandText(c) == name && Selected(c.head, 0) == 0 && Wanted(c, 0, 0) == Options(OK, FT_PRG, FAM_READ, 0)
            && Wanted(c, 1, 0) == Options(OK, FT_PRG, FAM_WRITE, 0) && Wanted(c, 2, 0) == Options(OK, 0, FAM_READ, 0)
    ensures var c := Command(Bare(name), [OfType(t, []), OfMode(mode, [])], false);
            IsCommand(c) && CommandText(c) == name + [Ch(',')] + TypeText(t) + [Ch(','), ModeText(mode)]
            && Wanted(c, 2, 0) == Options(OK, TypeCode(t), mode, 0) && Wanted(c, 0, 0) == Options(OK, TypeCode(t), FAM_READ, 0)
            && Wanted(c, 1, 0) == Options(OK, TypeCode(t), FAM_WRITE, 0)
  {
    var o, m := OfType(t, []), OfMode(mode, []);
    assert OptsText([], false) == [] && name + [] == name;
    assert [o, m][1..] == [m] && [m][1..] == [];
    assert OptText(o) == TypeText(t) && OptText(m) == [ModeText(mode)];
    assert OptsText([m], false) == [Ch(','), ModeText(mode)];
    assert OptsText([o, m], false) == [Ch(',')] + TypeText(t) + [Ch(','), ModeText(mode)];
    AskedTwice(Options(OK, FT_PRG, FAM_READ, 0), t, mode);
    AskedTwice(Options(OK, FT_PRG, FAM_WRITE, 0), t, mode);
    AskedTwice(Options(OK, 0, FAM_READ, 0), t, mode);
  }

  lemma AskedTwice(x: Options, t: FileType, mode: int)
    requires x.code == OK && !t.Rel?
    ensures AllAsked(x, [OfType(t, []), OfMode(mode, [])], false) == x.(filetype := TypeCode(t), readmode := mode)
  {
    var o, m := OfType(t, []), OfMode(mode, []);
    assert [o, m][1..] == [m] && [m][1..] == [];
    assert Asked(x, o) == x.(filetype := TypeCode(t));
    assert AllAsked(Asked(x, o), [m], false) == AllAsked(Asked(Asked(x, o), m), [], false);
  }

  /** A command is read from its beginning exactly if there is no colon in it. */
  lemma ColonDecides(s: seq<Byte>)
    ensures NameStart(s) == 0 <==> NoColon(s)
  {
    var colon := Find(s, Ch(':'), 0);
    hide Find;
  }

  /** A record length that is the code of a colon hides the name: the command is then read from behind it. */
  lemma ColonLength()
    ensures var s := [Ch('F'), Ch(',')] + TypeText(Rel(Ch(':')));
            NameStart(s) == |s| && Find(s, Ch(','), NameStart(s)) == |s|
  {
    var s := [Ch('F'), Ch(',')] + TypeText(Rel(Ch(':')));
    assert s == [Ch('F'), Ch(','), Ch('L'), Ch(','), Ch(':')];
    FindIs(s, Ch(':'), 0, 4);
    FindIs(s, Ch(','), 5, 5);
  }

  // ---- directories ----

  /** $, perhaps a drive digit and a colon, a pattern and what follows its comma. */
  datatype Directory = Directory(digit: seq<Byte>, colon: bool, pattern: seq<Byte>, tail: seq<Byte>)

  function DirectoryCommand(d: Directory): seq<Byte> {
    [Ch('$')] + d.digit + (if d.colon then [Ch(':')] else []) + d.pattern + d.tail
  }

  /** Without a colon the pattern must not look like one, nor, without a drive, like a drive. */
  predicate IsDirectory(d: Directory) {
    (d.digit == [] || d.digit == [Ch('0')] || d.digit == [Ch('1')]) && NoComma(d.pattern) && (d.tail != [] ==> d.tail[0] == Ch(','))
    && (d.pattern != [] ==>
          d.pattern[0] != 0 && (!d.colon ==> d.pattern[0] != Ch(':') && (d.digit == [] ==> !IsDriveDigit(d.pattern[0]))))
  }

  lemma DirectoryParsed(d: Directory, drive: int)
    requires IsDirectory(d)
    ensures var s := DirectoryCommand(d);
            var t, start := DirectoryText(s), DirectoryStart(s);
            var nothing := d.colon && d.pattern == [] && d.tail == [];
            DirectoryDrive(s, drive) == (if d.digit == [] then drive else d.digit[0] - Ch('0'))
            && t == (if nothing then s + [0] else s) && start <= |t|
            && t[start..Find(t, Ch(','), start)] == (if nothing then [0] else d.pattern)
            && t[Find(t, Ch(','), start)..] == d.tail
  {
    hide Find, DirectoryCommand, DirectoryText, DirectoryStart, DirectoryDrive, IsDirectory;
    var s := DirectoryCommand(d);
    DirectoryParts(d);
    DirectoryFields(d, drive);
    DirectoryTail(d);
    var t, start := DirectoryText(s), DirectoryStart(s);
    if d.colon && d.pattern == [] && d.tail == [] {
      FindIs(t, Ch(','), start, |t|);
    } else {
      assert forall j :: start <= j < start + |d.pattern| ==> s[j] == d.pattern[j - start];
      FindIs(t, Ch(','), start, start + |d.pattern|);
    }
  }

  /** What the parser gets out of a directory command; a colon with nothing behind it asks for a file that does not exist. */
  method ParseDirectory(p: CommandParse, d: Directory) returns (code: int)
    requires p.Buffer() && p.cmd != null && p.cmd.Length > p.cmdlength > 0 && p.cmd[0] == Ch('$')
    requires IsDirectory(d) && p.Text() == DirectoryCommand(d)
    modifies p
    ensures p.parsecmd == if d.colon && d.pattern == [] && d.tail == [] then [0] else d.pattern
    ensures p.drive == if d.digit == [] then old(p.drive) else d.digit[0] - Ch('0')
  {
    hide Find, Parsed, DirectoryCommand, DirectoryText, DirectoryStart, DirectoryDrive, IsDirectory;
    DirectoryParsed(d, p.drive);
    code := p.Parse();
  }

  function Front(d: Directory): seq<Byte> {
    [Ch('$')] + d.digit + (if d.colon then [Ch(':')] else [])
  }

  lemma DirectoryParts(d: Directory)
    ensures var s, start := DirectoryCommand(d), |Front(d)|;
            && |s| == start + |d.pattern| + |d.tail| && (forall i :: 0 <= i < start ==> s[i] == Front(d)[i])
            && (forall i :: start <= i < start + |d.pattern| ==> s[i] == d.pattern[i - start])
            && (forall i :: start + |d.pattern| <= i < |s| ==> s[i] == d.tail[i - start - |d.pattern|])
            && s[start..start + |d.pattern|] == d.pattern && s[start + |d.pattern|..] == d.tail
  {
    var s := DirectoryCommand(d);
    assert s == Front(d) + (d.pattern + d.tail);
  }

  lemma DirectoryTail(d: Directory)
    requires IsDirectory(d)
    ensures NoComma(d.pattern) && (d.tail != [] ==> d.tail[0] == Ch(','))
  {
  }

  lemma DirectoryFields(d: Directory, drive: int)
    requires IsDirectory(d)
    ensures var s := DirectoryCommand(d);
            && DirectoryStart(s) == |Front(d)|
            && DirectoryDrive(s, drive) == (if d.digit == [] then drive else d.digit[0] - Ch('0'))
            && DirectoryText(s) == (if d.colon && d.pattern == [] && d.tail == [] then s + [0] else s)
  {
    var s, start := DirectoryCommand(d), |Front(d)|;
    DirectoryParts(d);
    hide DirectoryCommand;
    assert start == 1 + |d.digit| + (if d.colon then 1 else 0);
    assert d.digit != [] ==> s[1] == Front(d)[1] == d.digit[0];
    assert d.colon ==> s[1 + |d.digit|] == Front(d)[1 + |d.digit|] == Ch(':');
    assert start < |s| ==> s[start] == (if d.pattern != [] then d.pattern[0] else d.tail[0]);
    assert At(s, start) == if start < |s| then s[start] else 0;
  }

  // ---- wildcards ----

  /** The part of a pattern in front of its first '*'. */
  function Stem(pattern: seq<Byte>): (n: nat)
    ensures n <= |pattern| && (n < |pattern| ==> pattern[n] == Ch('*'))
    ensures forall i :: 0 <= i < n ==> pattern[i] != Ch('*')
  {
    if pattern == [] || pattern[0] == Ch('*') then 0 else 1 + Stem(pattern[1..])
  }

  /** The first n characters are those of the pattern, any at a question mark. */
  predicate Begins(pattern: seq<Byte>, name: seq<Byte>, n: nat)
    requires n <= |pattern|
  {
    n <= |name| && forall i :: 0 <= i < n ==> pattern[i] == Ch('?') || pattern[i] == name[i]
  }

  /** A name matches if it begins with the part of the pattern in front of the star, and ends there if there is no star. */
  lemma {:induction false} MatchesMeans(pattern: seq<Byte>, name: seq<Byte>)
    ensures var n := Stem(pattern);
            Matches(pattern, name) <==> Begins(pattern, name, n) && (n == |pattern| ==> |name| == n)
  {
    if pattern != [] && pattern[0] != Ch('*') && name != [] {
      MatchesMeans(pattern[1..], name[1..]);
      BeginsCons(pattern, name, Stem(pattern));
      hide Begins;
    }
  }

  lemma BeginsCons(pattern: seq<Byte>, name: seq<Byte>, n: nat)
    requires 0 < n <= |pattern| && name != []
    ensures Begins(pattern, name, n)
            <==> (pattern[0] == Ch('?') || pattern[0] == name[0]) && Begins(pattern[1..], name[1..], n - 1)
  {
    if Begins(pattern[1..], name[1..], n - 1) && (pattern[0] == Ch('?') || pattern[0] == name[0]) {
      forall i | 0 <= i < n ensures pattern[i] == Ch('?') || pattern[i] == name[i] {
        if i > 0 {
          assert pattern[1..][i - 1] == pattern[i] && name[1..][i - 1] == name[i];
        }
      }
    }
  }
}
