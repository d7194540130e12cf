/**
 * What the instructions that touch memory promise: Fx33 writes the three
 * decimal digits of Vx, Fx55 and Fx65 copy V0..Vx to and from memory at I
 * (so a dump followed by a load gives the registers back), Dxyn draws the
 * bytes at I, and the boot image holds the font set.
 */
module Memory {
  import opened Bytes
  import opened Options
  import opened Opcodes
  import opened Machine
  import opened Control
  import opened Display

  /** The three BCD digits are decimal digits and spell out the byte. */
  lemma BcdDigitsSpell(b: u8)
    ensures |BcdDigits(b)| == 3
    ensures forall k :: 0 <= k < 3 ==> BcdDigits(b)[k] < 10
    ensures BcdDigits(b)[0] as int * 100 + BcdDigits(b)[1] as int * 10 + BcdDigits(b)[2] as int == b as int
  {
  }

  /** Fx33 in range writes the digits of Vx to I, I+1, I+2 and touches no other byte. */
  lemma BcdEffect(s: State, x: Reg, rand: u8)
    requires WellFormed(s) && Fetch(s) == Some(StoreBcd(x)) && s.i + 2 < MemorySize
    ensures var t := Exec(s, rand);
      && t.outcome == Running
      && t.state.memory[s.i .. s.i + 3] == BcdDigits(s.v[x])
      && (forall a :: 0 <= a < MemorySize && !(s.i <= a < s.i + 3) ==> t.state.memory[a] == s.memory[a])
      && t.state == s.(memory := t.state.memory, pc := s.pc + 2)
  {
  }

  /** Fx55: bytes I..I+x hold V0..Vx (as far as memory reaches) and no other byte changes. */
  lemma StoreRegsWrites(s: State, x: Reg)
    requires WellFormed(s)
    ensures var m := ExecStoreRegs(s, x).state.memory;
      && (forall k :: 0 <= k <= x && s.i + k < MemorySize ==> m[s.i + k] == s.v[k])
      && (forall a :: 0 <= a < MemorySize && !(s.i <= a <= s.i + x) ==> m[a] == s.memory[a])
  {
  }

  /** Fx65: V0..Vx hold bytes I..I+x (as far as memory reaches) and the other registers keep their values. */
  lemma LoadRegsReads(s: State, x: Reg)
    requires WellFormed(s)
    ensures var v := ExecLoadRegs(s, x).state.v;
      && (forall k :: 0 <= k <= x && s.i + k < MemorySize ==> v[k] == s.memory[s.i + k])
      && (forall k :: x < k < 16 ==> v[k] == s.v[k])
  {
  }

  /** Loading V0..Vx back from where Fx55 dumped them gives the registers unchanged, in range or not. */
  lemma StoreThenLoadRegs(s: State, x: Reg)
    requires WellFormed(s)
    ensures ExecLoadRegs(ExecStoreRegs(s, x).state, x).state.v == s.v
  {
    var t := ExecStoreRegs(s, x).state;
    var v := ExecLoadRegs(t, x).state.v;
    forall k | 0 <= k < 16 ensures v[k] == s.v[k] {
      if k <= x && s.i + k < MemorySize {
        assert t.memory[s.i + k] == s.v[k];
      }
    }
  }

  /** A cycle body that executes Fx55 with I + x in range dumps V0..Vx and moves on. */
  lemma StoreRegsStep(s: State, x: Reg, rand: u8)
    requires WellFormed(s) && Fetch(s) == Some(StoreRegs(x)) && s.i + x < MemorySize
    ensures Exec(s, rand) == StepResult(Running, s.(memory := StoredMemory(s.memory, s.i, s.v, x), pc := s.pc + 2))
  {
    ExecFetched(s, StoreRegs(x), rand);
  }

  /** A cycle body that executes Fx65 with I + x in range loads V0..Vx and moves on. */
  lemma LoadRegsStep(s: State, x: Reg, rand: u8)
    requires WellFormed(s) && Fetch(s) == Some(LoadRegs(x)) && s.i + x < MemorySize
    ensures Exec(s, rand) == StepResult(Running, s.(v := LoadedRegs(s.memory, s.i, s.v, x), pc := s.pc + 2))
  {
    ExecFetched(s, LoadRegs(x), rand);
  }

  /**
   * The program `Fx55; Fx65` run from a state with I in range: after both
   * cycles the registers are as before and memory holds the dump.
   */
  lemma DumpThenLoadProgram(s: State, x: Reg, rand1: u8, rand2: u8)
    requires WellFormed(s) && Fetch(s) == Some(StoreRegs(x)) && s.i + x < MemorySize
    ensures var t := Exec(s, rand1);
      && t.outcome == Running
      && (Fetch(t.state) == Some(LoadRegs(x)) ==>
            Exec(t.state, rand2) == StepResult(Running, t.state.(pc := s.pc + 4)))
  {
    StoreRegsStep(s, x, rand1);
    var t := s.(memory := StoredMemory(s.memory, s.i, s.v, x), pc := s.pc + 2);
    if Fetch(t) == Some(LoadRegs(x)) {
      LoadRegsStep(t, x, rand2);
      StoreThenLoadRegs(s, x);
      assert LoadedRegs(t.memory, t.i, t.v, x) == s.v;
    }
  }

  /** Dxyn with the sprite in memory: the screen gets the sprite XOR-ed on and VF the collision flag. */
  lemma DrawEffect(s: State, x: Reg, y: Reg, n: Reg, rand: u8)
    requires WellFormed(s) && Fetch(s) == Some(Draw(x, y, n)) && s.i + n <= MemorySize
    ensures var sprite, vx, vy := s.memory[s.i .. s.i + n], s.v[x] as nat, s.v[y] as nat;
      Exec(s, rand) == StepResult(Running,
        s.(pc := s.pc + 2,
           screen := DrawSprite(s.screen, sprite, vx, vy),
           v := s.v[Flag := if Erases(s.screen, DrawSprite(s.screen, sprite, vx, vy)) then 1 else 0]))
  {
    var sprite := s.memory[s.i .. s.i + n];
    assert SpriteRows(s, n) == sprite;
    CollisionMeansErased(s.screen, sprite, s.v[x] as nat, s.v[y] as nat);
  }

  /**
   * Executing the same Dxyn twice (x and y not VF, which the first draw
   * overwrites) restores the screen.
   */
  lemma DrawTwiceProgram(s: State, x: Reg, y: Reg, n: Reg, rand1: u8, rand2: u8)
    requires WellFormed(s) && Fetch(s) == Some(Draw(x, y, n)) && s.i + n <= MemorySize
    requires x != Flag && y != Flag
    ensures var t := Exec(s, rand1).state;
      Fetch(t) == Some(Draw(x, y, n)) ==> Exec(t, rand2).outcome == Running && Exec(t, rand2).state.screen == s.screen
  {
    var sprite, vx, vy := s.memory[s.i .. s.i + n], s.v[x] as nat, s.v[y] as nat;
    var t := Exec(s, rand1).state;
    DrawEffect(s, x, y, n, rand1);
    if Fetch(t) == Some(Draw(x, y, n)) {
      DrawEffect(t, x, y, n, rand2);
      DrawTwiceRestores(s.screen, sprite, vx, vy);
    }
  }

  /**
   * The second of two identical Dxyn reports a collision when sprite row
   * `row` has bit `col` set and the pixel it lands on was off before the
   * first draw (so the first draw turned it on).
   */
  lemma RedrawReportsCollision(s: State, x: Reg, y: Reg, n: Reg, rand1: u8, rand2: u8, row: nat, col: nat)
    requires WellFormed(s) && Fetch(s) == Some(Draw(x, y, n)) && s.i + n <= MemorySize
    requires x != Flag && y != Flag
    requires row < n && col < 8 && SpriteBit(s.memory[s.i + row], col)
    requires !s.screen[(row + s.v[y] as nat) % ScreenHeight][(col + s.v[x] as nat) % ScreenWidth]
    ensures var t := Exec(s, rand1).state;
      Fetch(t) == Some(Draw(x, y, n)) ==> Exec(t, rand2).state.v[Flag] == 1
  {
    var sprite, vx, vy := s.memory[s.i .. s.i + n], s.v[x] as nat, s.v[y] as nat;
    assert sprite[row] == s.memory[s.i + row];
    RedrawCollides(s.screen, sprite, vx, vy, row, col);
    DrawEffect(s, x, y, n, rand1);
    var t := Exec(s, rand1).state;
    if Fetch(t) == Some(Draw(x, y, n)) {
      assert t.memory == s.memory && t.i == s.i && t.v[x] == s.v[x] && t.v[y] == s.v[y];
      DrawEffect(t, x, y, n, rand2);
      CollisionMeansErased(t.screen, sprite, vx, vy);
    }
  }

  /** The boot image: the font at address 0, the program bytes from 80 on, pc at 0x200, timers at zero, a blank screen. */
  lemma BootLayout(rom: seq<u8>)
    requires |rom| == MemorySize
    ensures var s := Boot(rom);
      && s.memory[..|FontSet|] == FontSet
      && (forall a :: |FontSet| <= a < MemorySize ==> s.memory[a] == rom[a])
      && s.pc == ProgramStart && s.i == 0 && s.stack == [] && s.inputQueue == []
      && s.delayTimer == 0 && s.soundTimer == 0
      && (forall k :: 0 <= k < 16 ==> s.v[k] == 0)
      && (forall k :: 0 <= k < 16 ==> !s.pressedKeys[k])
      && s.screen == BlankScreen()
  {
  }

  /** Fx29 points I at the font sprite of digit Vx, which lies inside the font set for digits 0 to F. */
  lemma FontSpriteInFont(s: State, x: Reg, rand: u8)
    requires WellFormed(s) && Fetch(s) == Some(FontSprite(x)) && s.v[x] < 16
    ensures var i := Exec(s, rand).state.i;
      i == 5 * s.v[x] as nat && i + 5 <= |FontSet|
  {
  }
}
