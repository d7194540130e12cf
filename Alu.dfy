/**
 * What the register instructions (6xnn, 7xnn and 8xy0 to 8xyE) promise,
 * proved of the register-file functions of the Machine module and of `Exec`.
 */
module Alu {
  import opened Bytes
  import opened Opcodes
  import opened Machine

  /** Registers `a` and `b` agree everywhere except possibly at `x` and VF. */
  predicate OthersUnchanged(a: seq<u8>, b: seq<u8>, x: Reg)
    requires |a| == 16 && |b| == 16
  {
    forall k :: 0 <= k < 16 && k != x && k != Flag ==> a[k] == b[k]
  }

  /**
   * 8xy4: Vx := (Vx + Vy) mod 256, then VF := 1 exactly when the sum reaches
   * 256. The carry is written last, so with VF as the target (8Fy4) it
   * overwrites the sum.
   */
  lemma AddRegSemantics(v: seq<u8>, x: Reg, y: Reg)
    requires |v| == 16
    ensures var r, carry: u8 := AluAdd(v, x, y), if v[x] as int + v[y] as int >= 256 then 1 else 0;
      && r[Flag] == carry
      && (x != Flag ==> r[x] as int == (v[x] as int + v[y] as int) % 256)
      && OthersUnchanged(r, v, x)
  {
  }

  /**
   * 8xy5: VF := (Vx > Vy) first, then Vx := Vx - Vy wrapping, reading VF
   * afresh: with y = VF (8xF5) the flag is the operand, with x = VF (8Fy5)
   * the difference overwrites the flag, and 8FF5 leaves VF = 0.
   */
  lemma SubRegSemantics(v: seq<u8>, x: Reg, y: Reg)
    requires |v| == 16
    ensures var r, flag: u8 := AluSub(v, x, y), if v[x] > v[y] then 1 else 0;
      && (x != Flag && y != Flag ==> r[Flag] == flag && r[x] as int == (v[x] as int - v[y] as int) % 256)
      && (x != Flag && y == Flag ==> r[Flag] == flag && r[x] as int == (v[x] as int - flag as int) % 256)
      && (x == Flag && y != Flag ==> r[Flag] as int == (flag as int - v[y] as int) % 256)
      && (x == Flag && y == Flag ==> r[Flag] == 0)
      && OthersUnchanged(r, v, x)
  {
  }

  /**
   * 8xy7: VF := (Vy > Vx) first, then Vx := Vy - Vx wrapping, reading VF
   * afresh: with y = VF (8xF7) the flag is the minuend, with x = VF (8Fy7)
   * it is the subtrahend, and 8FF7 leaves VF = 0.
   */
  lemma SubReverseSemantics(v: seq<u8>, x: Reg, y: Reg)
    requires |v| == 16
    ensures var r, flag: u8 := AluSubReverse(v, x, y), if v[y] > v[x] then 1 else 0;
      && (x != Flag && y != Flag ==> r[Flag] == flag && r[x] as int == (v[y] as int - v[x] as int) % 256)
      && (x != Flag && y == Flag ==> r[Flag] == flag && r[x] as int == (flag as int - v[x] as int) % 256)
      && (x == Flag && y != Flag ==> r[Flag] as int == (v[y] as int - flag as int) % 256)
      && (x == Flag && y == Flag ==> r[Flag] == 0)
      && OthersUnchanged(r, v, x)
  {
  }

  /** 8xy6: VF := the bit shifted out, then Vx := Vx / 2; so 8Fy6 always leaves VF = 0. */
  lemma ShiftRightSemantics(v: seq<u8>, x: Reg)
    requires |v| == 16
    ensures var r := AluShiftRight(v, x);
      && (x != Flag ==> r[Flag] as int == v[x] as int % 2 && r[x] as int == v[x] as int / 2)
      && (x == Flag ==> r[Flag] == 0)
      && OthersUnchanged(r, v, x)
  {
  }

  /** 8xyE: VF := the bit shifted out, then Vx := 2 Vx mod 256; so 8FyE leaves VF = 2 * (VF >> 7). */
  lemma ShiftLeftSemantics(v: seq<u8>, x: Reg)
    requires |v| == 16
    ensures var r := AluShiftLeft(v, x);
      && (x != Flag ==> r[Flag] as int == v[x] as int / 128 && r[x] as int == (2 * v[x] as int) % 256)
      && (x == Flag ==> r[Flag] as int == 2 * (v[Flag] as int / 128))
      && OthersUnchanged(r, v, x)
  {
  }

  /** The shifts operate on Vx alone: the y nibble makes no difference. */
  lemma ShiftsIgnoreY(s: State, x: Reg, y1: Reg, y2: Reg, rand: u8)
    requires WellFormed(s)
    ensures ExecInstr(s, ShiftRight(x, y1), rand) == ExecInstr(s, ShiftRight(x, y2), rand)
    ensures ExecInstr(s, ShiftLeft(x, y1), rand) == ExecInstr(s, ShiftLeft(x, y2), rand)
  {
  }

  /** 8xy6 with Vx = 0b11 gives VF = 1 and Vx = 1 whatever Vy holds. */
  lemma ShiftRightExample(v: seq<u8>, x: Reg)
    requires |v| == 16 && x != Flag && v[x] == 3
    ensures AluShiftRight(v, x)[Flag] == 1 && AluShiftRight(v, x)[x] == 1
  {
  }

  /** 7xnn adds modulo 256 and leaves VF alone. */
  lemma AddImmKeepsFlag(s: State, x: Reg, nn: u8, rand: u8)
    requires WellFormed(s) && x != Flag
    ensures var t := ExecInstr(s, AddImm(x, nn), rand).state;
      t.v[Flag] == s.v[Flag] && t.v[x] as int == (s.v[x] as int + nn as int) % 256
  {
  }

  /** Cxnn stores the host's random byte masked by nn and changes nothing else. */
  lemma RandomMasks(s: State, x: Reg, nn: u8, rand: u8)
    requires WellFormed(s)
    ensures ExecInstr(s, Random(x, nn), rand) == Effect(s.(v := s.v[x := BitAnd(rand, nn)]), FallThrough)
  {
  }
}
