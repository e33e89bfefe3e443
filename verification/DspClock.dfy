/**
 The two-word clock arithmetic of the FMOD header: a 64-bit tick count is kept
 in two unsigned 32-bit variables, and two macros add to or subtract from such
 a pair in place.
 */
module DspClock {
  import opened Modular

  const WORD := 0x1_0000_0000
  const RANGE := 0x1_0000_0000_0000_0000

  /** C's 32-bit unsigned int. */
  type u32 = x: int | 0 <= x < 0x1_0000_0000

  datatype Clock = Clock(hi: u32, lo: u32)

  /** The tick count that a pair of words stands for. */
  function Ticks(c: Clock): int {
    c.hi * 0x1_0000_0000 + c.lo
  }

  /** Unsigned arithmetic wraps (section 6.2.5 of ISO/IEC 9899:2011); one
      addition or subtraction of words overshoots by less than one range. */
  function Wrap(x: int): u32
    requires -WORD <= x < 2 * WORD
  {
    if x < 0 then x + WORD else if x < WORD then x else x - WORD
  }

  /** Arithmetic modulo 2^64, which the two words are meant to carry out. */
  function TicksMod(x: int): int {
    x % 0x1_0000_0000_0000_0000
  }

  // The test the macro uses for a carry: the wrapped sum fell below the addend.
  function Carry(a: u32, b: u32): int {
    if Wrap(a + b) < a then 1 else 0
  }

  // The test the macro uses for a borrow: the wrapped difference rose above the minuend.
  function Borrow(a: u32, b: u32): int {
    if Wrap(a - b) > a then 1 else 0
  }

  function Add(a: Clock, b: Clock): Clock {
    Clock(Wrap(a.hi + Wrap(b.hi + Carry(a.lo, b.lo))), Wrap(a.lo + b.lo))
  }

  function Sub(a: Clock, b: Clock): Clock {
    Clock(Wrap(a.hi - Wrap(b.hi + Borrow(a.lo, b.lo))), Wrap(a.lo - b.lo))
  }

  // What the addition macro leaves when its fourth operand is the very
  // variable that its first operand has just updated.
  function AddThroughHigh(a: Clock, hi2: u32): Clock {
    var hi := Add(a, Clock(hi2, a.hi)).hi;
    Clock(hi, Wrap(a.lo + hi))
  }

  // The same for the subtraction macro.
  function SubThroughHigh(a: Clock, hi2: u32): Clock {
    var hi := Sub(a, Clock(hi2, a.hi)).hi;
    Clock(hi, Wrap(a.lo - hi))
  }

  // ----- What the words mean -----

  lemma CarryMeansOverflow(a: u32, b: u32)
    ensures Carry(a, b) == 1 <==> a + b >= WORD
    ensures Borrow(a, b) == 1 <==> a < b
  {
  }

  lemma RangeSmall(x: int)
    requires -RANGE <= x < 2 * RANGE
    ensures TicksMod(x) == if x < 0 then x + RANGE else if x < RANGE then x else x - RANGE
  {
  }

  lemma AddIsModular(a: Clock, b: Clock)
    ensures Ticks(Add(a, b)) == TicksMod(Ticks(a) + Ticks(b))
  {
    RangeSmall(Ticks(a) + Ticks(b));
  }

  lemma SubIsModular(a: Clock, b: Clock)
    ensures Ticks(Sub(a, b)) == TicksMod(Ticks(a) - Ticks(b))
  {
    RangeSmall(Ticks(a) - Ticks(b));
  }

  lemma AddSubUndo(a: Clock, b: Clock)
    ensures Sub(Add(a, b), b) == a
    ensures Add(Sub(a, b), b) == a
  {
  }

  // ----- Runs of additions -----

  function AddAll(start: Clock, steps: seq<Clock>): Clock
    decreases |steps|
  {
    if steps == [] then start else AddAll(Add(start, steps[0]), steps[1..])
  }

  function TotalTicks(steps: seq<Clock>): int {
    if steps == [] then 0 else Ticks(steps[0]) + TotalTicks(steps[1..])
  }

  lemma ModSum(x: int, y: int)
    ensures TicksMod(TicksMod(x) + y) == TicksMod(x + y)
  {
    ModStep(x, y, RANGE);
  }

  lemma AddThenMore(a: Clock, b: Clock, more: int)
    ensures TicksMod(Ticks(Add(a, b)) + more) == TicksMod(Ticks(a) + Ticks(b) + more)
  {
    AddIsModular(a, b);
    ModSum(Ticks(a) + Ticks(b), more);
  }

  /** However many additions are made, only the true sum matters. */
  lemma {:induction false} AddAllIsModular(start: Clock, steps: seq<Clock>)
    ensures Ticks(AddAll(start, steps)) == TicksMod(Ticks(start) + TotalTicks(steps))
    decreases |steps|
  {
    if steps == [] {
      RangeSmall(Ticks(start));
    } else {
      AddThenMore(start, steps[0], TotalTicks(steps[1..]));
      AddAllIsModular(Add(start, steps[0]), steps[1..]);
    }
  }

  // ----- The one sharing of operands that breaks them -----

  /** With the low addend kept in the target's high word, the macro still adds
      correctly exactly when the high word does not change. */
  lemma HighWordAliasExact(a: Clock, hi2: u32)
    ensures AddThroughHigh(a, hi2) == Add(a, Clock(hi2, a.hi)) <==>
            (hi2 == 0 && a.lo + a.hi < WORD) || (hi2 == WORD - 1 && a.lo + a.hi >= WORD)
  {
  }

  /** And with the low subtrahend kept there, it still subtracts correctly
      exactly when the high word does not change. */
  lemma HighWordAliasSubExact(a: Clock, hi2: u32)
    ensures SubThroughHigh(a, hi2) == Sub(a, Clock(hi2, a.hi)) <==>
            (hi2 == 0 && a.lo >= a.hi) || (hi2 == WORD - 1 && a.lo < a.hi)
  {
  }

  /** From a clock at zero both macros go wrong. */
  lemma HighWordAliasBreaks()
    ensures AddThroughHigh(Clock(0, 0), 1) != Add(Clock(0, 0), Clock(1, 0))
    ensures SubThroughHigh(Clock(0, 0), 1) != Sub(Clock(0, 0), Clock(1, 0))
  {
    HighWordAliasExact(Clock(0, 0), 1);
    HighWordAliasSubExact(Clock(0, 0), 1);
  }

  // ----- The macros -----

  /** A C variable, so that two macro operands can name the same one. */
  class Word {
    var v: u32

    constructor (x: u32)
      ensures v == x
    {
      v := x;
    }
  }

  /** FMOD_64BIT_ADD. Any operands may coincide except the two words of the
      target; a second low word that is the target's high word is read too late. */
  method Add64(hi1: Word, lo1: Word, hi2: Word, lo2: Word)
    requires hi1 != lo1
    modifies hi1, lo1
    ensures lo2 != hi1 ==>
      Clock(hi1.v, lo1.v) == Add(old(Clock(hi1.v, lo1.v)), old(Clock(hi2.v, lo2.v)))
    ensures lo2 == hi1 ==>
      Clock(hi1.v, lo1.v) == AddThroughHigh(old(Clock(hi1.v, lo1.v)), old(hi2.v))
  {
    hi1.v := Wrap(hi1.v + Wrap(hi2.v + Carry(lo1.v, lo2.v)));
    lo1.v := Wrap(lo1.v + lo2.v);
  }

  /** FMOD_64BIT_SUB, with the same freedom. */
  method Sub64(hi1: Word, lo1: Word, hi2: Word, lo2: Word)
    requires hi1 != lo1
    modifies hi1, lo1
    ensures lo2 != hi1 ==>
      Clock(hi1.v, lo1.v) == Sub(old(Clock(hi1.v, lo1.v)), old(Clock(hi2.v, lo2.v)))
    ensures lo2 == hi1 ==>
      Clock(hi1.v, lo1.v) == SubThroughHigh(old(Clock(hi1.v, lo1.v)), old(hi2.v))
  {
    hi1.v := Wrap(hi1.v - Wrap(hi2.v + Borrow(lo1.v, lo2.v)));
    lo1.v := Wrap(lo1.v - lo2.v);
  }

  /** One clock as both operands: the first macro doubles it modulo 2^64. */
  method Double(hi: Word, lo: Word)
    requires hi != lo
    modifies hi, lo
    ensures Ticks(Clock(hi.v, lo.v)) == TicksMod(2 * old(Ticks(Clock(hi.v, lo.v))))
  {
    ghost var c := Clock(hi.v, lo.v);
    Add64(hi, lo, hi, lo);
    AddIsModular(c, c);
  }

  /** One clock as both operands: the second macro clears it. */
  method Clear(hi: Word, lo: Word)
    requires hi != lo
    modifies hi, lo
    ensures hi.v == 0 && lo.v == 0
  {
    Sub64(hi, lo, hi, lo);
  }
}
