/** Binary coded decimal numbers of any length: what chains of decimal additions and subtractions compute. */
module Decimal {
  import opened Bits
  import opened Isa6510

  predicate IsBcd(b: Byte) {
    b % 16 <= 9 && b / 16 <= 9
  }

  function Value(b: Byte): int {
    10 * (b / 16) + b % 16
  }

  /** Numbers are sequences of bytes, the least significant first. */
  predicate IsNumber(xs: seq<Byte>) {
    forall i :: 0 <= i < |xs| ==> IsBcd(xs[i])
  }

  function Number(xs: seq<Byte>): int {
    if xs == [] then 0 else Value(xs[0]) + 100 * Number(xs[1..])
  }

  function Power100(n: nat): (p: int)
    ensures p > 0
  {
    if n == 0 then 1 else 100 * Power100(n - 1)
  }

  /** What a carry out of n bytes is worth. */
  function CarryValue(n: nat, c: bool): int {
    if c then Power100(n) else 0
  }

  /** An adder or subtracter: accumulator, operand and carry in, accumulator and carry out. */
  type Unit = (Byte, Byte, bool) -> (Byte, bool)

  /** One byte of every number after the other, the carry going from each to the next. */
  function Chain(f: Unit, xs: seq<Byte>, ys: seq<Byte>, c: bool): (seq<Byte>, bool)
    requires |xs| == |ys|
  {
    if xs == [] then ([], c)
    else
      var r := f(xs[0], ys[0], c);
      var rest := Chain(f, xs[1..], ys[1..], r.1);
      ([r.0] + rest.0, rest.1)
  }

  /** Carry out of an addition means one hundred; no carry into or out of a subtraction means a borrow. */
  ghost predicate Adds(f: Unit) {
    forall a: Byte, v: Byte, c: bool :: IsBcd(a) && IsBcd(v) ==>
      var r := f(a, v, c);
      IsBcd(r.0) && Value(r.0) + 100 * Num(r.1) == Value(a) + Value(v) + Num(c)
  }

  ghost predicate Subtracts(f: Unit) {
    forall a: Byte, v: Byte, c: bool :: IsBcd(a) && IsBcd(v) ==>
      var r := f(a, v, c);
      IsBcd(r.0) && Value(r.0) - 100 * Num(!r.1) == Value(a) - Value(v) - Num(!c)
  }

  lemma NumberCons(b: Byte, bs: seq<Byte>)
    ensures Number([b] + bs) == Value(b) + 100 * Number(bs)
    ensures IsBcd(b) && IsNumber(bs) ==> IsNumber([b] + bs)
  {
    assert ([b] + bs)[1..] == bs;
  }

  /** A chain of any length adds exactly: the sum modulo a power of one hundred, and the carry is the rest. */
  lemma {:induction false} ChainAdds(f: Unit, xs: seq<Byte>, ys: seq<Byte>, c: bool)
    requires Adds(f) && |xs| == |ys| && IsNumber(xs) && IsNumber(ys)
    ensures var (zs, out) := Chain(f, xs, ys, c);
            |zs| == |xs| && IsNumber(zs)
            && Number(zs) + CarryValue(|xs|, out) == Number(xs) + Number(ys) + Num(c)
  {
    hide IsBcd, Value;
    if xs != [] {
      var r := f(xs[0], ys[0], c);
      var rest := Chain(f, xs[1..], ys[1..], r.1);
      ChainAdds(f, xs[1..], ys[1..], r.1);
      NumberCons(r.0, rest.0);
    }
  }

  lemma {:induction false} ChainSubtracts(f: Unit, xs: seq<Byte>, ys: seq<Byte>, c: bool)
    requires Subtracts(f) && |xs| == |ys| && IsNumber(xs) && IsNumber(ys)
    ensures var (zs, out) := Chain(f, xs, ys, c);
            |zs| == |xs| && IsNumber(zs)
            && Number(zs) - CarryValue(|xs|, !out) == Number(xs) - Number(ys) - Num(!c)
  {
    hide IsBcd, Value;
    if xs != [] {
      var r := f(xs[0], ys[0], c);
      var rest := Chain(f, xs[1..], ys[1..], r.1);
      ChainSubtracts(f, xs[1..], ys[1..], r.1);
      NumberCons(r.0, rest.0);
    }
  }

  lemma Hundreds(a: int, c: int, b: int, d: int)
    requires 0 <= a <= 99 && 0 <= b <= 99 && a + 100 * c == b + 100 * d
    ensures a == b && c == d
  {
  }

  lemma ValueDigits(a: Byte, b: Byte)
    requires IsBcd(a) && IsBcd(b) && Value(a) == Value(b)
    ensures a == b
  {
    assert a / 16 == Value(a) / 10 && b / 16 == Value(b) / 10;
  }

  lemma {:induction false} NumberRange(xs: seq<Byte>)
    requires IsNumber(xs)
    ensures 0 <= Number(xs) < Power100(|xs|)
  {
    if xs != [] {
      NumberRange(xs[1..]);
    }
  }

  /** Numbers of one length are told apart by their values. */
  lemma {:induction false} NumberInjective(xs: seq<Byte>, ys: seq<Byte>)
    requires |xs| == |ys| && IsNumber(xs) && IsNumber(ys) && Number(xs) == Number(ys)
    ensures xs == ys
  {
    if xs != [] {
      Hundreds(Value(xs[0]), Number(xs[1..]), Value(ys[0]), Number(ys[1..]));
      ValueDigits(xs[0], ys[0]);
      NumberInjective(xs[1..], ys[1..]);
    }
  }

  /** Subtracting what has been added gives the first number back, whatever was carried out. */
  lemma AddThenSubtract(add: Unit, sub: Unit, xs: seq<Byte>, ys: seq<Byte>)
    requires Adds(add) && Subtracts(sub) && |xs| == |ys| && IsNumber(xs) && IsNumber(ys)
    ensures |Chain(add, xs, ys, false).0| == |ys|
    ensures Chain(sub, Chain(add, xs, ys, false).0, ys, true).0 == xs
  {
    hide Chain, Adds, Subtracts, IsNumber, Number;
    ChainAdds(add, xs, ys, false);
    var (sum, carry) := Chain(add, xs, ys, false);
    ChainSubtracts(sub, sum, ys, true);
    var (back, out) := Chain(sub, sum, ys, true);
    NumberRange(xs);
    NumberRange(back);
    NumberInjective(back, xs);
  }

  // ---- the 6510 ----

  function DecimalMode(c: bool): Status {
    Status(false, false, false, true, false, false, c)
  }

  /** What both 6510 cores compute. */
  function Add6510(a: Byte, v: Byte, c: bool): (Byte, bool) {
    var r := Add(a, v, DecimalMode(c));
    (r.0, r.1.c)
  }

  function Subtract6510(a: Byte, v: Byte, c: bool): (Byte, bool) {
    var r := Subtract(a, v, DecimalMode(c));
    (r.0, r.1.c)
  }

  lemma Adds6510()
    ensures Adds(Add6510)
  {
    forall a: Byte, v: Byte, c: bool | IsBcd(a) && IsBcd(v)
      ensures var r := Add6510(a, v, c);
              IsBcd(r.0) && Value(r.0) + 100 * Num(r.1) == Value(a) + Value(v) + Num(c)
    {
      AddExact(a, v, c);
    }
  }

  lemma AddParts(a: Byte, v: Byte, c: bool)
    ensures var lo := DigitCorrected(a % 16 + v % 16 + Num(c));
            var hi := DigitCorrected(a / 16 + v / 16 + Num(lo > 15));
            Add6510(a, v, c) == (U8(16 * hi + lo % 16), hi > 15)
  {
    hide DigitCorrected, U8, Bit7;
  }

  lemma DigitSum(al: int, ah: int, vl: int, vh: int, c: int)
    requires 0 <= al <= 9 && 0 <= ah <= 9 && 0 <= vl <= 9 && 0 <= vh <= 9 && 0 <= c <= 1
    ensures var lo := al + vl + c;
            var hi := ah + vh + Num(lo > 9);
            10 * (hi % 10) + lo % 10 + 100 * Num(hi > 9) == 10 * ah + al + 10 * vh + vl + c
  {
  }

  lemma AddExact(a: Byte, v: Byte, c: bool)
    requires IsBcd(a) && IsBcd(v)
    ensures var r := Add6510(a, v, c);
            IsBcd(r.0) && Value(r.0) + 100 * Num(r.1) == Value(a) + Value(v) + Num(c)
  {
    hide DigitCorrected, Add6510, U8;
    var al, ah, vl, vh := a % 16, a / 16, v % 16, v / 16;
    var lo := al + vl + Num(c);
    var hi := ah + vh + Num(lo > 9);
    AddParts(a, v, c);
    DigitBytes(lo, hi);
    DigitSum(al, ah, vl, vh, Num(c));
    BcdByte(hi % 10, lo % 10);
  }

  lemma BcdByte(hi: int, lo: int)
    requires 0 <= hi <= 9 && 0 <= lo <= 9
    ensures IsBcd(16 * hi + lo) && Value(16 * hi + lo) == 10 * hi + lo
  {
    Nibbles(hi, lo);
  }

  lemma DigitBytes(lo: int, hi: int)
    requires 0 <= lo <= 19 && 0 <= hi <= 19
    ensures var l, h := DigitCorrected(lo), DigitCorrected(hi);
            (l > 15) == (lo > 9) && l % 16 == lo % 10 && U8(16 * h + l % 16) == 16 * (hi % 10) + lo % 10
            && (h > 15) == (hi > 9)
  {
  }

  lemma Subtracts6510()
    ensures Subtracts(Subtract6510)
  {
    forall a: Byte, v: Byte, c: bool | IsBcd(a) && IsBcd(v)
      ensures var r := Subtract6510(a, v, c);
              IsBcd(r.0) && Value(r.0) - 100 * Num(!r.1) == Value(a) - Value(v) - Num(!c)
    {
      SubtractExact(a, v, c);
    }
  }

  lemma SubtractParts(a: Byte, v: Byte, c: bool)
    ensures var lo := a % 16 - v % 16 - Num(!c);
            var hi := a / 16 - v / 16 - Num(lo < 0);
            var r := U8(16 * (if hi < 0 then hi - 6 else hi) + (if lo < 0 then lo - 6 else lo) % 16);
            Subtract6510(a, v, c) == (r, hi >= 0)
  {
    hide U8, SetNZ, Bit7;
  }

  lemma DigitDifference(al: int, ah: int, vl: int, vh: int, c: int)
    requires 0 <= al <= 9 && 0 <= ah <= 9 && 0 <= vl <= 9 && 0 <= vh <= 9 && 0 <= c <= 1
    ensures var lo := al - vl - c;
            var hi := ah - vh - Num(lo < 0);
            10 * (hi % 10) + lo % 10 - 100 * Num(hi < 0) == 10 * ah + al - 10 * vh - vl - c
  {
  }

  lemma SubtractExact(a: Byte, v: Byte, c: bool)
    requires IsBcd(a) && IsBcd(v)
    ensures var r := Subtract6510(a, v, c);
            IsBcd(r.0) && Value(r.0) - 100 * Num(!r.1) == Value(a) - Value(v) - Num(!c)
  {
    hide U8, Subtract6510;
    var al, ah, vl, vh := a % 16, a / 16, v % 16, v / 16;
    var lo := al - vl - Num(!c);
    var hi := ah - vh - Num(lo < 0);
    SubtractParts(a, v, c);
    BorrowBytes(lo, hi);
    DigitDifference(al, ah, vl, vh, Num(!c));
    BcdByte(hi % 10, lo % 10);
  }

  lemma BorrowBytes(lo: int, hi: int)
    requires -10 <= lo <= 9 && -10 <= hi <= 9
    ensures U8(16 * (if hi < 0 then hi - 6 else hi) + (if lo < 0 then lo - 6 else lo) % 16)
         == 16 * (hi % 10) + lo % 10
  {
    hide U8;
    BorrowDigit(lo);
    BorrowDigit(hi);
    Nibbles(if hi < 0 then hi - 6 else hi, (if lo < 0 then lo - 6 else lo) % 16);
  }

  lemma BorrowDigit(d: int)
    requires -10 <= d <= 9
    ensures (if d < 0 then d - 6 else d) % 16 == d % 10 == (if d < 0 then d + 10 else d)
  {
  }
}
