/**
 * The programs of the interpreter's own unit tests, stated as lemmas about
 * `Machine.Run`: each ROM is built as the test helper builds it (big-endian
 * words from 0x200 on, zero elsewhere), and each lemma states how far the
 * run loop gets and what it leaves behind.
 */
module Scenarios {
  import opened Bytes
  import opened Options
  import opened Opcodes
  import opened Machine
  import opened Control
  import opened Display
  import opened Memory

  /** A 4096-byte image with the 16-bit words of `code` stored big-endian from 0x200 on. */
  function LoadProgram(code: seq<nat>): (rom: seq<u8>)
    requires ProgramStart + 2 * |code| <= MemorySize
    requires forall k :: 0 <= k < |code| ==> code[k] < 0x10000
    ensures |rom| == MemorySize
    ensures forall k :: 0 <= k < |code| ==>
      rom[ProgramStart + 2 * k] as nat == code[k] / 256 && rom[ProgramStart + 2 * k + 1] as nat == code[k] % 256
  {
    seq(MemorySize, a requires 0 <= a < MemorySize =>
      if ProgramStart <= a < ProgramStart + 2 * |code| then
        var k := (a - ProgramStart) / 2;
        (if (a - ProgramStart) % 2 == 0 then code[k] / 256 else code[k] % 256) as u8
      else 0)
  }

  /** After boot, word `k` of the program sits big-endian at 0x200 + 2k. */
  lemma BootWord(code: seq<nat>, k: nat)
    requires ProgramStart + 2 * |code| <= MemorySize
    requires forall j :: 0 <= j < |code| ==> code[j] < 0x10000
    requires k < |code|
    ensures var m := Boot(LoadProgram(code)).memory;
      m[ProgramStart + 2 * k] as nat == code[k] / 256 && m[ProgramStart + 2 * k + 1] as nat == code[k] % 256
  {
    BootLayout(LoadProgram(code));
  }

  /**
   * A cycle from a state whose timers are at zero and whose pc points at
   * the bytes `hi lo` executes the instruction they decode to.
   */
  lemma CycleAt(s: State, hi: u8, lo: u8, rand: u8)
    requires WellFormed(s) && s.delayTimer == 0 && s.soundTimer == 0 && s.pc + 1 < MemorySize
    requires s.memory[s.pc] == hi && s.memory[s.pc + 1] == lo
    ensures Cycle(s, rand) == Finish(ExecInstr(s, Decode(hi, lo), rand))
  {
    assert Tick(s) == s;
  }

  const ArithmeticCode: seq<nat> := [0x1206, 0x60ff, 0x61fe, 0x9010, 0x00ee]

  /** Where the `arithmetic` program's instructions sit after boot. */
  predicate ArithmeticLoaded(s: State)
  {
    && WellFormed(s) && s.pc == ProgramStart && s.delayTimer == 0 && s.soundTimer == 0
    && s.stack == [] && s.v[0] == 0 && s.v[1] == 0
    && s.memory[0x200] == 0x12 && s.memory[0x201] == 0x06
    && s.memory[0x206] == 0x90 && s.memory[0x207] == 0x10
    && s.memory[0x208] == 0x00 && s.memory[0x209] == 0xee
  }

  lemma ArithmeticBoot()
    ensures ArithmeticLoaded(Boot(LoadProgram(ArithmeticCode)))
  {
    var s0 := Boot(LoadProgram(ArithmeticCode));
    assert s0.memory[0x200] == 0x12 && s0.memory[0x201] == 0x06;
    assert s0.memory[0x206] == 0x90 && s0.memory[0x207] == 0x10;
    assert s0.memory[0x208] == 0x00 && s0.memory[0x209] == 0xee;
  }

  lemma ArithmeticCycles(s0: State)
    requires ArithmeticLoaded(s0)
    ensures var s1, s2 := s0.(pc := 0x206), s0.(pc := 0x208);
      && Cycle(s0, 0) == StepResult(Running, s1)
      && Cycle(s1, 0) == StepResult(Running, s2)
      && Cycle(s2, 0) == StepResult(Halted, s2)
  {
    DecodeArithmetic();
    CycleAt(s0, 0x12, 0x06, 0);
    CycleAt(s0.(pc := 0x206), 0x90, 0x10, 0);
    CycleAt(s0.(pc := 0x208), 0x00, 0xee, 0);
  }

  lemma ArithmeticRun(s0: State)
    requires ArithmeticLoaded(s0)
    ensures Run(s0, Zeros(3)) == RunResult(Halted, s0.(pc := 0x208), 3)
  {
    ArithmeticCycles(s0);
    var s1, s2 := s0.(pc := 0x206), s0.(pc := 0x208);
    assert Zeros(3)[1..] == Zeros(2) && Zeros(2)[1..] == Zeros(1);
    RunUnroll(s2, Zeros(1));
    RunUnroll(s1, Zeros(2));
    RunUnroll(s0, Zeros(3));
  }

  /**
   * The `arithmetic` test: the jump skips both loads, V0 == V1 == 0, so
   * 9010 does not skip and 00EE halts on the third cycle.
   */
  lemma ArithmeticHalts()
    ensures var r := Run(Boot(LoadProgram(ArithmeticCode)), Zeros(3));
      r.outcome == Halted && r.cycles == 3 && r.state.v[0] == 0 && r.state.v[1] == 0
      && r.state.pc == 0x208
  {
    ArithmeticBoot();
    ArithmeticRun(Boot(LoadProgram(ArithmeticCode)));
  }

  lemma DecodeArithmetic()
    ensures Decode(0x12, 0x06) == Jump(0x206)
    ensures Decode(0x90, 0x10) == SkipNeReg(0, 1)
    ensures Decode(0x00, 0xee) == Return
  {
  }

  /** `n` random bytes, all zero: none of these programs executes Cxnn. */
  function Zeros(n: nat): (z: seq<u8>)
    ensures |z| == n && forall k :: 0 <= k < n ==> z[k] == 0
  {
    seq(n, _ => 0)
  }

  /** One cycle of `Run`: a program still running after it goes on with the remaining bytes. */
  lemma RunUnroll(s: State, rands: seq<u8>)
    requires WellFormed(s) && rands != []
    ensures var c := Cycle(s, rands[0]);
      && (c.outcome == Running ==>
            Run(s, rands) == var t := Run(c.state, rands[1..]); RunResult(t.outcome, t.state, t.cycles + 1))
      && (c.outcome != Running ==> Run(s, rands) == RunResult(c.outcome, c.state, 1))
  {
  }

  // The `jumps` test: its image holds 61ff 62fe 9120 at 0x200 and 00ee at
  // 0x208, which is the image `LoadProgram` builds from these five words.
  const JumpsCode: seq<nat> := [0x61ff, 0x62fe, 0x9120, 0x0000, 0x00ee]

  predicate JumpsLoaded(s: State)
  {
    && WellFormed(s) && s.pc == ProgramStart && s.delayTimer == 0 && s.soundTimer == 0 && s.stack == []
    && s.memory[0x200] == 0x61 && s.memory[0x201] == 0xff
    && s.memory[0x202] == 0x62 && s.memory[0x203] == 0xfe
    && s.memory[0x204] == 0x91 && s.memory[0x205] == 0x20
    && s.memory[0x208] == 0x00 && s.memory[0x209] == 0xee
  }

  lemma JumpsBoot()
    ensures JumpsLoaded(Boot(LoadProgram(JumpsCode)))
  {
    var s0 := Boot(LoadProgram(JumpsCode));
    assert s0.memory[0x200] == 0x61 && s0.memory[0x201] == 0xff;
    assert s0.memory[0x202] == 0x62 && s0.memory[0x203] == 0xfe;
    assert s0.memory[0x204] == 0x91 && s0.memory[0x205] == 0x20;
    assert s0.memory[0x208] == 0x00 && s0.memory[0x209] == 0xee;
  }

  lemma DecodeJumps()
    ensures Decode(0x61, 0xff) == LoadImm(1, 0xff)
    ensures Decode(0x62, 0xfe) == LoadImm(2, 0xfe)
    ensures Decode(0x91, 0x20) == SkipNeReg(1, 2)
    ensures Decode(0x00, 0xee) == Return
  {
  }

  lemma JumpsCycles(s0: State)
    requires JumpsLoaded(s0)
    ensures var s1 := s0.(pc := 0x202, v := s0.v[1 := 0xff]);
      var s2 := s0.(pc := 0x204, v := s0.v[1 := 0xff][2 := 0xfe]);
      && Cycle(s0, 0) == StepResult(Running, s1)
      && Cycle(s1, 0) == StepResult(Running, s2)
      && Cycle(s2, 0) == StepResult(Running, s2.(pc := 0x208))
      && Cycle(s2.(pc := 0x208), 0) == StepResult(Halted, s2.(pc := 0x208))
  {
    DecodeJumps();
    var s1 := s0.(pc := 0x202, v := s0.v[1 := 0xff]);
    var s2 := s0.(pc := 0x204, v := s0.v[1 := 0xff][2 := 0xfe]);
    CycleAt(s0, 0x61, 0xff, 0);
    CycleAt(s1, 0x62, 0xfe, 0);
    CycleAt(s2, 0x91, 0x20, 0);
    CycleAt(s2.(pc := 0x208), 0x00, 0xee, 0);
  }

  lemma JumpsRun(s0: State)
    requires JumpsLoaded(s0)
    ensures Run(s0, Zeros(4)) == RunResult(Halted, s0.(pc := 0x208, v := s0.v[1 := 0xff][2 := 0xfe]), 4)
  {
    JumpsCycles(s0);
    var s1 := s0.(pc := 0x202, v := s0.v[1 := 0xff]);
    var s2 := s0.(pc := 0x204, v := s0.v[1 := 0xff][2 := 0xfe]);
    var s3 := s2.(pc := 0x208);
    assert Zeros(4)[1..] == Zeros(3) && Zeros(3)[1..] == Zeros(2) && Zeros(2)[1..] == Zeros(1);
    RunUnroll(s3, Zeros(1));
    RunUnroll(s2, Zeros(2));
    RunUnroll(s1, Zeros(3));
    RunUnroll(s0, Zeros(4));
  }

  /** The `jumps` test: 9120 skips the zero word at 0x206 because V1 != V2, and 00EE halts. */
  lemma JumpsHalts()
    ensures var r := Run(Boot(LoadProgram(JumpsCode)), Zeros(4));
      r.outcome == Halted && r.cycles == 4 && r.state.pc == 0x208
      && r.state.v[1] == 0xff && r.state.v[2] == 0xfe
  {
    JumpsBoot();
    JumpsRun(Boot(LoadProgram(JumpsCode)));
  }

  // The `collision` test: a two-row sprite of set bits drawn twice at (1, 1).
  const CollisionCode: seq<nat> :=
    [0x1204, 0xffff, 0x6001, 0x6101, 0xa202, 0xd012, 0x3f00, 0x1fff, 0xd012, 0x4f00, 0x1fff, 0x00ee]

  /** Where the `collision` program's instructions and sprite sit after boot. */
  predicate CollisionLoaded(s: State)
  {
    && WellFormed(s) && s.pc == ProgramStart && s.delayTimer == 0 && s.soundTimer == 0 && s.stack == []
    && s.screen == BlankScreen() && s.v[Flag] == 0
    && s.memory[0x200] == 0x12 && s.memory[0x201] == 0x04
    && s.memory[0x202] == 0xff && s.memory[0x203] == 0xff
    && s.memory[0x204] == 0x60 && s.memory[0x205] == 0x01
    && s.memory[0x206] == 0x61 && s.memory[0x207] == 0x01
    && s.memory[0x208] == 0xa2 && s.memory[0x209] == 0x02
    && s.memory[0x20a] == 0xd0 && s.memory[0x20b] == 0x12
    && s.memory[0x20c] == 0x3f && s.memory[0x20d] == 0x00
    && s.memory[0x210] == 0xd0 && s.memory[0x211] == 0x12
    && s.memory[0x212] == 0x4f && s.memory[0x213] == 0x00
    && s.memory[0x216] == 0x00 && s.memory[0x217] == 0xee
  }

  lemma CollisionBoot()
    ensures CollisionLoaded(Boot(LoadProgram(CollisionCode)))
  {
    var code := CollisionCode;
    BootWord(code, 0); BootWord(code, 1); BootWord(code, 2); BootWord(code, 3);
    BootWord(code, 4); BootWord(code, 5); BootWord(code, 6);
    BootWord(code, 8); BootWord(code, 9); BootWord(code, 11);
  }

  lemma DecodeCollision()
    ensures Decode(0x12, 0x04) == Jump(0x204)
    ensures Decode(0x60, 0x01) == LoadImm(0, 1)
    ensures Decode(0x61, 0x01) == LoadImm(1, 1)
    ensures Decode(0xa2, 0x02) == SetIndex(0x202)
    ensures Decode(0xd0, 0x12) == Draw(0, 1, 2)
    ensures Decode(0x3f, 0x00) == SkipEqImm(Flag, 0)
    ensures Decode(0x4f, 0x00) == SkipNeImm(Flag, 0)
    ensures Decode(0x00, 0xee) == Return
  {
  }

  /** The state before the first draw: V0 = V1 = 1, I at the sprite. */
  function BeforeDraw(s0: State): State
    requires WellFormed(s0)
  {
    s0.(pc := 0x20a, v := s0.v[0 := 1][1 := 1], i := 0x202)
  }

  /** The screen after the first draw. */
  function FirstDrawn(): seq<seq<bool>>
  {
    DrawSprite(BlankScreen(), [0xff, 0xff], 1, 1)
  }

  /** 1204 jumps over the sprite data and 6001 sets V0. */
  lemma CollisionSetupJump(s0: State)
    requires CollisionLoaded(s0)
    ensures var t1 := s0.(pc := 0x204);
      && Cycle(s0, 0) == StepResult(Running, t1)
      && Cycle(t1, 0) == StepResult(Running, s0.(pc := 0x206, v := s0.v[0 := 1]))
  {
    DecodeCollision();
    CycleAt(s0, 0x12, 0x04, 0);
    CycleAt(s0.(pc := 0x204), 0x60, 0x01, 0);
  }

  /** 6101 sets V1 and A202 points I at the sprite. */
  lemma CollisionSetupIndex(s0: State)
    requires CollisionLoaded(s0)
    ensures var t2 := s0.(pc := 0x206, v := s0.v[0 := 1]);
      var t3 := s0.(pc := 0x208, v := s0.v[0 := 1][1 := 1]);
      && Cycle(t2, 0) == StepResult(Running, t3)
      && Cycle(t3, 0) == StepResult(Running, BeforeDraw(s0))
  {
    DecodeCollision();
    var t2 := s0.(pc := 0x206, v := s0.v[0 := 1]);
    var t3 := s0.(pc := 0x208, v := s0.v[0 := 1][1 := 1]);
    CycleAt(t2, 0x61, 0x01, 0);
    CycleAt(t3, 0xa2, 0x02, 0);
  }

  /** The first draw finds a blank screen: VF = 0, so 3F00 skips the trap. */
  lemma CollisionFirstDraw(s0: State)
    requires CollisionLoaded(s0)
    ensures var t4 := BeforeDraw(s0);
      var t5 := t4.(pc := 0x20c, screen := FirstDrawn());
      && Cycle(t4, 0) == StepResult(Running, t5)
      && Cycle(t5, 0) == StepResult(Running, t5.(pc := 0x210))
  {
    DecodeCollision();
    var t4 := BeforeDraw(s0);
    assert SpriteRows(t4, 2) == [0xff, 0xff];
    BlankNeverCollides([0xff, 0xff], 1, 1);
    assert t4.v[Flag := 0] == t4.v;
    CycleAt(t4, 0xd0, 0x12, 0);
    var t5 := t4.(pc := 0x20c, screen := FirstDrawn());
    CycleAt(t5, 0x3f, 0x00, 0);
  }

  /** The second draw erases the sprite and reports the collision. */
  lemma CollisionSecondDraw(s0: State)
    requires CollisionLoaded(s0)
    ensures var t4 := BeforeDraw(s0);
      var t6 := t4.(pc := 0x210, screen := FirstDrawn());
      Cycle(t6, 0) == StepResult(Running, t4.(pc := 0x212, v := t4.v[Flag := 1]))
  {
    DecodeCollision();
    var t4 := BeforeDraw(s0);
    var t6 := t4.(pc := 0x210, screen := FirstDrawn());
    assert SpriteRows(t6, 2) == [0xff, 0xff];
    FullRowBits(0);
    RedrawCollides(BlankScreen(), [0xff, 0xff], 1, 1, 0, 0);
    DrawTwiceRestores(BlankScreen(), [0xff, 0xff], 1, 1);
    CycleAt(t6, 0xd0, 0x12, 0);
  }

  /** With VF = 1, 4F00 skips the trap and 00EE halts. */
  lemma CollisionFinish(s0: State)
    requires CollisionLoaded(s0)
    ensures var t4 := BeforeDraw(s0);
      var t7 := t4.(pc := 0x212, v := t4.v[Flag := 1]);
      && Cycle(t7, 0) == StepResult(Running, t7.(pc := 0x216))
      && Cycle(t7.(pc := 0x216), 0) == StepResult(Halted, t7.(pc := 0x216))
  {
    DecodeCollision();
    var t4 := BeforeDraw(s0);
    var t7 := t4.(pc := 0x212, v := t4.v[Flag := 1]);
    CycleAt(t7, 0x4f, 0x00, 0);
    CycleAt(t7.(pc := 0x216), 0x00, 0xee, 0);
  }

  /** The last five cycles: both draws, both skips and the return. */
  lemma CollisionRunDraws(s0: State)
    requires CollisionLoaded(s0)
    ensures var t4 := BeforeDraw(s0);
      Run(t4, Zeros(5)) == RunResult(Halted, t4.(pc := 0x216, v := t4.v[Flag := 1]), 5)
  {
    CollisionFirstDraw(s0);
    CollisionSecondDraw(s0);
    CollisionFinish(s0);
    var t4 := BeforeDraw(s0);
    var t5 := t4.(pc := 0x20c, screen := FirstDrawn());
    var t6 := t4.(pc := 0x210, screen := FirstDrawn());
    var t7 := t4.(pc := 0x212, v := t4.v[Flag := 1]);
    assert t5.(pc := 0x210) == t6;
    assert Zeros(5)[1..] == Zeros(4) && Zeros(4)[1..] == Zeros(3);
    assert Zeros(3)[1..] == Zeros(2) && Zeros(2)[1..] == Zeros(1);
    RunUnroll(t7.(pc := 0x216), Zeros(1));
    RunUnroll(t7, Zeros(2));
    RunUnroll(t6, Zeros(3));
    RunUnroll(t5, Zeros(4));
    RunUnroll(t4, Zeros(5));
  }

  lemma CollisionRun(s0: State)
    requires CollisionLoaded(s0)
    ensures var t4 := BeforeDraw(s0);
      Run(s0, Zeros(9)) == RunResult(Halted, t4.(pc := 0x216, v := t4.v[Flag := 1]), 9)
  {
    CollisionSetupJump(s0);
    CollisionSetupIndex(s0);
    CollisionRunDraws(s0);
    var t1 := s0.(pc := 0x204);
    var t2 := s0.(pc := 0x206, v := s0.v[0 := 1]);
    var t3 := s0.(pc := 0x208, v := s0.v[0 := 1][1 := 1]);
    assert Zeros(9)[1..] == Zeros(8) && Zeros(8)[1..] == Zeros(7);
    assert Zeros(7)[1..] == Zeros(6) && Zeros(6)[1..] == Zeros(5);
    RunUnroll(t3, Zeros(6));
    RunUnroll(t2, Zeros(7));
    RunUnroll(t1, Zeros(8));
    RunUnroll(s0, Zeros(9));
  }

  /**
   * The `collision` test: the first DXYN draws on a blank screen and
   * leaves VF = 0, the second draws the same sprite on top of it, erases
   * it and sets VF = 1, so neither 1FFF trap is reached and 00EE halts on
   * the ninth cycle with the screen blank again.
   */
  lemma CollisionHalts()
    ensures var r := Run(Boot(LoadProgram(CollisionCode)), Zeros(9));
      r.outcome == Halted && r.cycles == 9 && r.state.pc == 0x216
      && r.state.v[Flag] == 1 && r.state.v[0] == 1 && r.state.v[1] == 1 && r.state.i == 0x202
      && r.state.screen == BlankScreen()
  {
    CollisionBoot();
    CollisionOutcome(Boot(LoadProgram(CollisionCode)));
  }

  /** `CollisionHalts` for any state the collision test could have booted into. */
  lemma CollisionOutcome(s0: State)
    requires CollisionLoaded(s0)
    ensures var r := Run(s0, Zeros(9));
      r.outcome == Halted && r.cycles == 9 && r.state.pc == 0x216
      && r.state.v[Flag] == 1 && r.state.v[0] == 1 && r.state.v[1] == 1 && r.state.i == 0x202
      && r.state.screen == BlankScreen()
  {
    CollisionRun(s0);
  }
}
