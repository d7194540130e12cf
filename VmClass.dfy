/**
 * `Vm` as the source has it: an object whose fields the run loop updates
 * in place, with memory, registers, screen and keypad as fixed-size
 * buffers. Each method is proved to leave the object in the state that the
 * Machine module's functions compute from the state before the call, so
 * every property proved of those functions holds of the object.
 */
module VmClass {
  import opened Bytes
  import opened Options
  import opened Input
  import opened Keypad
  import opened Opcodes
  import opened Machine
  import opened Control
  import opened Display

  // Each family of arms in one statement about a symbolic instruction, so
  // that the methods below unfold ExecInstr once rather than once per arm.

  /** 00EE, 1nnn, 2nnn and Bnnn. */
  lemma FlowArms(s: State, ins: Instr, rand: u8)
    requires WellFormed(s)
    ensures ins.Return? ==> ExecInstr(s, ins, rand) == ExecReturn(s)
    ensures ins.Jump? ==> ExecInstr(s, ins, rand) == Effect(s.(pc := ins.addr), Continue)
    ensures ins.Call? ==> ExecInstr(s, ins, rand) == Effect(s.(stack := s.stack + [s.pc], pc := ins.addr), Continue)
    ensures ins.JumpOffset? ==> ExecInstr(s, ins, rand) == Effect(s.(pc := ins.addr + s.v[0] as nat), Continue)
  {
  }

  /** 3xnn, 4xnn, 5xy0 and 9xy0. */
  lemma SkipArms(s: State, ins: Instr, rand: u8)
    requires WellFormed(s) && (ins.SkipEqImm? || ins.SkipNeImm? || ins.SkipEqReg? || ins.SkipNeReg?)
    ensures ExecInstr(s, ins, rand) == SkipIf(s, SkipTaken(s, ins))
  {
  }

  /** 6xnn, 7xnn, Cxnn and Fx07. */
  lemma SetArms(s: State, ins: Instr, rand: u8)
    requires WellFormed(s)
    ensures ins.LoadImm? ==> ExecInstr(s, ins, rand) == WithRegs(s, s.v[ins.x := ins.nn])
    ensures ins.AddImm? ==> ExecInstr(s, ins, rand) == WithRegs(s, s.v[ins.x := WrappingAdd(s.v[ins.x], ins.nn)])
    ensures ins.Random? ==> ExecInstr(s, ins, rand) == WithRegs(s, s.v[ins.x := BitAnd(rand, ins.nn)])
    ensures ins.GetDelay? ==> ExecInstr(s, ins, rand) == WithRegs(s, s.v[ins.x := s.delayTimer])
  {
  }

  /** 8xy0 to 8xy3. */
  lemma BitwiseArms(s: State, ins: Instr, rand: u8)
    requires WellFormed(s)
    ensures ins.Move? ==> ExecInstr(s, ins, rand) == WithRegs(s, s.v[ins.x := s.v[ins.y]])
    ensures ins.Or? ==> ExecInstr(s, ins, rand) == WithRegs(s, s.v[ins.x := BitOr(s.v[ins.x], s.v[ins.y])])
    ensures ins.And? ==> ExecInstr(s, ins, rand) == WithRegs(s, s.v[ins.x := BitAnd(s.v[ins.x], s.v[ins.y])])
    ensures ins.Xor? ==> ExecInstr(s, ins, rand) == WithRegs(s, s.v[ins.x := BitXor(s.v[ins.x], s.v[ins.y])])
  {
  }

  /** 8xy4 to 8xyE. */
  lemma AluArms(s: State, ins: Instr, rand: u8)
    requires WellFormed(s)
    ensures ins.AddReg? ==> ExecInstr(s, ins, rand) == WithRegs(s, AluAdd(s.v, ins.x, ins.y))
    ensures ins.SubReg? ==> ExecInstr(s, ins, rand) == WithRegs(s, AluSub(s.v, ins.x, ins.y))
    ensures ins.ShiftRight? ==> ExecInstr(s, ins, rand) == WithRegs(s, AluShiftRight(s.v, ins.x))
    ensures ins.SubReverse? ==> ExecInstr(s, ins, rand) == WithRegs(s, AluSubReverse(s.v, ins.x, ins.y))
    ensures ins.ShiftLeft? ==> ExecInstr(s, ins, rand) == WithRegs(s, AluShiftLeft(s.v, ins.x))
  {
  }

  /** Annn, Fx15, Fx18, Fx1E and Fx29. */
  lemma IndexArms(s: State, ins: Instr, rand: u8)
    requires WellFormed(s)
    ensures ins.SetIndex? ==> ExecInstr(s, ins, rand) == Effect(s.(i := ins.addr), FallThrough)
    ensures ins.SetDelay? ==> ExecInstr(s, ins, rand) == Effect(s.(delayTimer := s.v[ins.x]), FallThrough)
    ensures ins.SetSound? ==> ExecInstr(s, ins, rand) == Effect(s.(soundTimer := s.v[ins.x]), FallThrough)
    ensures ins.AddIndex? ==>
      ExecInstr(s, ins, rand) == Effect(s.(i := (s.i + s.v[ins.x] as nat) % UsizeModulus), FallThrough)
    ensures ins.FontSprite? ==> ExecInstr(s, ins, rand) == Effect(s.(i := s.v[ins.x] as nat * 5), FallThrough)
  {
  }

  class Vm {
    const memory: array<u8>
    var pc: nat
    const v: array<u8>
    var i: nat
    var stack: seq<nat>
    const screen: array2<bool>
    var delayTimer: u8
    var soundTimer: u8
    const pressedKeys: array<bool>
    /** The events sent to the input channel and not yet received. */
    var inputQueue: seq<InputEvent>

    /** The buffers have the sizes of their Rust arrays, and memory and V are distinct buffers. */
    ghost predicate Valid()
      reads this
    {
      && memory.Length == MemorySize
      && v.Length == 16
      && memory != v
      && i < UsizeModulus
      && screen.Length0 == ScreenHeight && screen.Length1 == ScreenWidth
      && pressedKeys.Length == KeyCount
    }

    /** The screen buffer as rows of pixels. */
    ghost function Pixels(): (g: seq<seq<bool>>)
      reads screen
      ensures |g| == screen.Length0
      ensures forall r :: 0 <= r < screen.Length0 ==> |g[r]| == screen.Length1
      ensures forall r, c :: 0 <= r < screen.Length0 && 0 <= c < screen.Length1 ==> g[r][c] == screen[r, c]
    {
      var g := screen;
      seq(g.Length0, r requires 0 <= r < g.Length0 reads g =>
        seq(g.Length1, c requires 0 <= c < g.Length1 reads g => g[r, c]))
    }

    /** The object's state as a value of the model. */
    ghost function Snapshot(): (s: State)
      requires Valid()
      reads this, memory, v, screen, pressedKeys
      ensures WellFormed(s)
    {
      State(memory[..], pc, v[..], i, stack, Pixels(), delayTimer, soundTimer, pressedKeys[..], inputQueue)
    }

    /** `Vm::run` up to the loop: the font set copied over the first 80 bytes of the image. */
    constructor (rom: seq<u8>)
      requires |rom| == MemorySize
      ensures Valid() && Snapshot() == Boot(rom)
      ensures fresh(memory) && fresh(v) && fresh(screen) && fresh(pressedKeys)
    {
      memory := new u8[MemorySize](a requires 0 <= a < MemorySize => if a < |FontSet| then FontSet[a] else rom[a]);
      pc := ProgramStart;
      v := new u8[16](_ => 0);
      i := 0;
      stack := [];
      screen := new bool[ScreenHeight, ScreenWidth]((_, _) => false);
      delayTimer, soundTimer := 0, 0;
      pressedKeys := new bool[KeyCount](_ => false);
      inputQueue := [];
      new;
      assert memory[..] == FontSet + rom[|FontSet|..];
      ScreensEqual(Pixels(), BlankScreen());
    }

    /** The host sends events to the input channel; they wait in the queue until received. */
    method Send(events: seq<InputEvent>)
      requires Valid()
      modifies this
      ensures Valid() && Snapshot() == old(Snapshot()).(inputQueue := old(inputQueue) + events)
    {
      inputQueue := inputQueue + events;
    }

    /** The top of the loop: both timers count down, stopping at zero. */
    method Tick()
      requires Valid()
      modifies this
      ensures Valid() && Snapshot() == Machine.Tick(old(Snapshot()))
    {
      delayTimer := SaturatingSub(delayTimer, 1);
      soundTimer := SaturatingSub(soundTimer, 1);
    }

    /** `fetch_key_events`: receive every queued event and apply it to the keypad. */
    method FetchKeyEvents()
      requires Valid()
      modifies this, pressedKeys
      ensures Valid()
      ensures Snapshot() == old(Snapshot()).(pressedKeys := ApplyEvents(old(pressedKeys[..]), old(inputQueue)),
                                             inputQueue := [])
    {
      while inputQueue != []
        invariant Valid()
        invariant ApplyEvents(pressedKeys[..], inputQueue) == ApplyEvents(old(pressedKeys[..]), old(inputQueue))
        invariant Snapshot() == old(Snapshot()).(pressedKeys := pressedKeys[..], inputQueue := inputQueue)
        decreases |inputQueue|
      {
        var event := inputQueue[0];
        inputQueue := inputQueue[1..];
        match KeyIdx(event)
        case Some(idx) =>
          if event.value == 0 {
            pressedKeys[idx] := false;
          } else {
            pressedKeys[idx] := true;
          }
        case None =>
      }
    }

    /**
     * `wait_for_key`: receive events until one presses a key, applying each
     * to the keypad; `None` when the queue runs dry first (where the
     * original blocks on the channel).
     */
    method WaitForKey() returns (found: Option<nat>)
      requires Valid()
      modifies this, pressedKeys
      ensures Valid()
      ensures Wait(found, pressedKeys[..], inputQueue) == Keypad.WaitForKey(old(pressedKeys[..]), old(inputQueue))
      ensures Snapshot() == old(Snapshot()).(pressedKeys := pressedKeys[..], inputQueue := inputQueue)
    {
      found := None;
      while inputQueue != []
        invariant Valid()
        invariant Keypad.WaitForKey(pressedKeys[..], inputQueue) == Keypad.WaitForKey(old(pressedKeys[..]), old(inputQueue))
        invariant Snapshot() == old(Snapshot()).(pressedKeys := pressedKeys[..], inputQueue := inputQueue)
        decreases |inputQueue|
      {
        var event := inputQueue[0];
        inputQueue := inputQueue[1..];
        match KeyIdx(event)
        case Some(idx) =>
          if event.value == 0 {
            pressedKeys[idx] := false;
          } else {
            pressedKeys[idx] := true;
            return Some(idx);
          }
        case None =>
      }
    }

    /**
     * Dxyn: VF := 0, then for each sprite row and column XOR the sprite
     * bit onto the pixel it lands on (wrapping at the edges), setting VF
     * when a pixel that was on is hit; a panic when row I + row is past
     * the end of memory, with the rows before it drawn.
     */
    method Draw(x: Reg, y: Reg, n: Reg) returns (flow: Flow)
      requires Valid()
      modifies screen, v
      ensures Valid()
      ensures Effect(Snapshot(), flow) == ExecDraw(old(Snapshot()), x, y, n)
    {
      ghost var s0 := Snapshot();
      ghost var sprite := SpriteRows(s0, n);
      var vx, vy := v[x] as nat, v[y] as nat;
      v[Flag] := 0;
      var row := 0;
      while row < n
        invariant row <= |sprite| && row <= n
        invariant forall k :: 0 <= k < 16 && k != Flag ==> v[k] == s0.v[k]
        invariant v[Flag] == if CollidesBefore(s0.screen, sprite, vx, vy, row, 0) then 1 else 0
        invariant forall r, c :: 0 <= r < ScreenHeight && 0 <= c < ScreenWidth ==>
          screen[r, c] == (s0.screen[r][c] != CoveredBefore(sprite, vx, vy, r, c, row, 0))
      {
        // The source reads memory[I + row] for column 0 before any write to the row.
        if i + row >= MemorySize {
          DrawFinished(s0, x, y, n, row);
          return IndexPanic;
        }
        DrawRow(s0, sprite, vx, vy, row);
        row := row + 1;
      }
      DrawFinished(s0, x, y, n, row);
      flow := FallThrough;
    }

    /** One pixel of Dxyn: XOR `bit` into it and OR the collision into VF. */
    method Plot(tr: nat, tc: nat, bit: bool)
      requires Valid() && tr < ScreenHeight && tc < ScreenWidth && v[Flag] <= 1
      modifies screen, v
      ensures forall k :: 0 <= k < 16 && k != Flag ==> v[k] == old(v[k])
      ensures v[Flag] == if old(v[Flag]) == 1 || (old(screen[tr, tc]) && bit) then 1 else 0
      ensures screen[tr, tc] == (old(screen[tr, tc]) != bit)
      ensures forall r, c :: 0 <= r < ScreenHeight && 0 <= c < ScreenWidth && (r != tr || c != tc) ==>
        screen[r, c] == old(screen[r, c])
    {
      var pixel := screen[tr, tc];
      FlagOr(v[Flag], if pixel && bit then 1 else 0);
      v[Flag] := BitOr(v[Flag], if pixel && bit then 1 else 0);
      screen[tr, tc] := pixel != bit;
    }

    /**
     * The inner loop of Dxyn: draw the eight bits of sprite row `row`, each
     * read from memory[I + row] as the source reads it.
     */
    method DrawRow(ghost s0: State, ghost sprite: seq<u8>, vx: nat, vy: nat, row: nat)
      requires Valid() && WellFormed(s0) && IsScreen(s0.screen)
      requires row < |sprite| < 16 && i + row < MemorySize && memory[i + row] == sprite[row]
      requires v[Flag] == if CollidesBefore(s0.screen, sprite, vx, vy, row, 0) then 1 else 0
      requires forall r, c :: 0 <= r < ScreenHeight && 0 <= c < ScreenWidth ==>
        screen[r, c] == (s0.screen[r][c] != CoveredBefore(sprite, vx, vy, r, c, row, 0))
      modifies screen, v
      ensures forall k :: 0 <= k < 16 && k != Flag ==> v[k] == old(v[k])
      ensures v[Flag] == if CollidesBefore(s0.screen, sprite, vx, vy, row + 1, 0) then 1 else 0
      ensures forall r, c :: 0 <= r < ScreenHeight && 0 <= c < ScreenWidth ==>
        screen[r, c] == (s0.screen[r][c] != CoveredBefore(sprite, vx, vy, r, c, row + 1, 0))
    {
      var col := 0;
      while col < 8
        invariant col <= 8
        invariant forall k :: 0 <= k < 16 && k != Flag ==> v[k] == old(v[k])
        invariant v[Flag] == if CollidesBefore(s0.screen, sprite, vx, vy, row, col) then 1 else 0
        invariant forall r, c :: 0 <= r < ScreenHeight && 0 <= c < ScreenWidth ==>
          screen[r, c] == (s0.screen[r][c] != CoveredBefore(sprite, vx, vy, r, c, row, col))
      {
        var tr, tc := (row + vy) % ScreenHeight, (col + vx) % ScreenWidth;
        var bit := SpriteBit(memory[i + row], col);
        forall r, c | 0 <= r < ScreenHeight && 0 <= c < ScreenWidth {
          DrawnStep(s0.screen, sprite, vx, vy, row, col, r, c);
        }
        CollidesStep(s0.screen, sprite, vx, vy, row, col);
        Plot(tr, tc, bit);
        col := col + 1;
      }
      forall r, c | 0 <= r < ScreenHeight && 0 <= c < ScreenWidth {
        NextRow(s0.screen, sprite, vx, vy, row, r, c);
      }
      NextRow(s0.screen, sprite, vx, vy, row, 0, 0);
    }

    /** The state the Dxyn loops leave once they have drawn every row they reach. */
    lemma DrawFinished(s0: State, x: Reg, y: Reg, n: Reg, row: nat)
      requires Valid() && WellFormed(s0)
      requires memory[..] == s0.memory && pc == s0.pc && i == s0.i && stack == s0.stack
      requires delayTimer == s0.delayTimer && soundTimer == s0.soundTimer
      requires pressedKeys[..] == s0.pressedKeys && inputQueue == s0.inputQueue
      requires row == |SpriteRows(s0, n)|
      requires var sprite, vx, vy := SpriteRows(s0, n), s0.v[x] as nat, s0.v[y] as nat;
        && (forall k :: 0 <= k < 16 && k != Flag ==> v[k] == s0.v[k])
        && v[Flag] == (if CollidesBefore(s0.screen, sprite, vx, vy, row, 0) then 1 else 0)
        && (forall r, c :: 0 <= r < ScreenHeight && 0 <= c < ScreenWidth ==>
              screen[r, c] == (s0.screen[r][c] != CoveredBefore(sprite, vx, vy, r, c, row, 0)))
      ensures Snapshot() == ExecDraw(s0, x, y, n).state
    {
      var sprite, vx, vy := SpriteRows(s0, n), s0.v[x] as nat, s0.v[y] as nat;
      forall r, c | 0 <= r < ScreenHeight && 0 <= c < ScreenWidth {
        DrawnAll(s0.screen, sprite, vx, vy, r, c);
      }
      DrawnAll(s0.screen, sprite, vx, vy, 0, 0);
      ScreensEqual(Pixels(), DrawSprite(s0.screen, sprite, vx, vy));
      assert v[..] == s0.v[Flag := if Collides(s0.screen, sprite, vx, vy) then 1 else 0];
    }

    /** 00E0: every pixel of the screen buffer is switched off. */
    method ClearScreen()
      requires Valid()
      modifies screen
      ensures Valid() && Snapshot() == old(Snapshot()).(screen := BlankScreen())
    {
      var r := 0;
      while r < ScreenHeight
        invariant r <= ScreenHeight
        invariant forall r', c :: 0 <= r' < ScreenHeight && 0 <= c < ScreenWidth ==>
          screen[r', c] == (r' >= r && old(screen[r', c]))
      {
        var c := 0;
        while c < ScreenWidth
          invariant c <= ScreenWidth
          invariant forall r', c' :: 0 <= r' < ScreenHeight && 0 <= c' < ScreenWidth ==>
            screen[r', c'] == ((r' > r || (r' == r && c' >= c)) && old(screen[r', c']))
        {
          screen[r, c] := false;
          c := c + 1;
        }
        r := r + 1;
      }
      ScreensEqual(Pixels(), BlankScreen());
    }

    /** Fx33: from offset 2 down to 0, store Vx mod 10 at I + offset and divide Vx by 10. */
    method StoreBcd(x: Reg) returns (flow: Flow)
      requires Valid()
      modifies memory
      ensures Valid() && Effect(Snapshot(), flow) == ExecBcd(old(Snapshot()), x)
    {
      ghost var b := v[x];
      var vx := v[x];
      var offset := 3;
      while offset > 0
        invariant offset <= 3
        invariant offset == 3 ==> vx == b
        invariant offset == 2 ==> vx == b / 10
        invariant offset == 1 ==> vx == b / 100
        invariant offset < 3 ==> i + 2 < MemorySize
        invariant forall a :: 0 <= a < MemorySize ==>
          memory[a] == if i + offset <= a < i + 3 then BcdDigits(b)[a - i] else old(memory[a])
      {
        offset := offset - 1;
        if i + offset >= MemorySize {
          assert memory[..] == old(memory[..]);
          return IndexPanic;
        }
        memory[i + offset] := vx % 10;
        vx := vx / 10;
      }
      assert memory[..] == old(memory[..])[i := BcdDigits(b)[0]][i + 1 := BcdDigits(b)[1]][i + 2 := BcdDigits(b)[2]];
      flow := FallThrough;
    }

    /** Fx55: for k in 0..=x, memory[I + k] := Vk; a panic at the first address past the end. */
    method StoreRegs(x: Reg) returns (flow: Flow)
      requires Valid()
      modifies memory
      ensures Valid() && Effect(Snapshot(), flow) == ExecStoreRegs(old(Snapshot()), x)
    {
      var k := 0;
      while k <= x
        invariant k <= x + 1
        invariant 0 < k ==> i + k - 1 < MemorySize
        invariant forall a :: 0 <= a < MemorySize ==>
          memory[a] == if i <= a < i + k then v[a - i] else old(memory[a])
      {
        if i + k >= MemorySize {
          assert memory[..] == StoredMemory(old(memory[..]), i, v[..], x);
          assert v[..] == old(v[..]) && Pixels() == old(Pixels()) && pressedKeys[..] == old(pressedKeys[..]);
          return IndexPanic;
        }
        memory[i + k] := v[k];
        k := k + 1;
      }
      assert memory[..] == StoredMemory(old(memory[..]), i, v[..], x);
      assert v[..] == old(v[..]) && Pixels() == old(Pixels()) && pressedKeys[..] == old(pressedKeys[..]);
      flow := FallThrough;
    }

    /** Fx65: for k in 0..=x, Vk := memory[I + k]; a panic at the first address past the end. */
    method LoadRegs(x: Reg) returns (flow: Flow)
      requires Valid()
      modifies v
      ensures Valid() && Effect(Snapshot(), flow) == ExecLoadRegs(old(Snapshot()), x)
    {
      var k := 0;
      while k <= x
        invariant k <= x + 1
        invariant 0 < k ==> i + k - 1 < MemorySize
        invariant forall j :: 0 <= j < 16 ==>
          v[j] == if j < k && i + j < MemorySize then memory[i + j] else old(v[j])
      {
        if i + k >= MemorySize {
          assert v[..] == LoadedRegs(memory[..], i, old(v[..]), x);
          assert memory[..] == old(memory[..]) && Pixels() == old(Pixels()) && pressedKeys[..] == old(pressedKeys[..]);
          return IndexPanic;
        }
        v[k] := memory[i + k];
        k := k + 1;
      }
      assert v[..] == LoadedRegs(memory[..], i, old(v[..]), x);
      assert memory[..] == old(memory[..]) && Pixels() == old(Pixels()) && pressedKeys[..] == old(pressedKeys[..]);
      flow := FallThrough;
    }

    /** Ex9E / ExA1: receive the queued events, then skip when key Vx is (not) pressed. */
    method SkipKey(x: Reg, whenPressed: bool) returns (flow: Flow)
      requires Valid()
      modifies this, pressedKeys
      ensures Valid() && Effect(Snapshot(), flow) == ExecSkipKey(old(Snapshot()), x, whenPressed)
    {
      var vx := v[x] as nat;
      FetchKeyEvents();
      if vx >= KeyCount {
        return IndexPanic;
      }
      if pressedKeys[vx] == whenPressed {
        pc := pc + 2;
      }
      flow := FallThrough;
    }

    /** Fx0A: Vx := the key `wait_for_key` returns. */
    method WaitKey(x: Reg) returns (flow: Flow)
      requires Valid()
      modifies this, v, pressedKeys
      ensures Valid() && Effect(Snapshot(), flow) == ExecWaitKey(old(Snapshot()), x)
    {
      var found := WaitForKey();
      match found
      case None =>
        flow := Blocked;
      case Some(k) =>
        v[x] := k as u8;
        flow := FallThrough;
    }

    /** The arms that move pc: 00EE, 1nnn, 2nnn and Bnnn. */
    method ExecuteFlow(ins: Instr, ghost rand: u8) returns (flow: Flow)
      requires Valid()
      requires ins.Return? || ins.Jump? || ins.Call? || ins.JumpOffset?
      modifies this
      ensures Valid() && Effect(Snapshot(), flow) == ExecInstr(old(Snapshot()), ins, rand)
    {
      FlowArms(Snapshot(), ins, rand);
      match ins
      case Return =>
        if stack == [] {
          flow := Break;
        } else {
          pc := stack[|stack| - 1];
          stack := stack[..|stack| - 1];
          flow := FallThrough;
        }
      case Jump(a) => pc := a; flow := Continue;
      case Call(a) => stack := stack + [pc]; pc := a; flow := Continue;
      case JumpOffset(a) => pc := a + v[0] as nat; flow := Continue;
    }

    /** The conditional skips on registers: 3xnn, 4xnn, 5xy0 and 9xy0. */
    method ExecuteSkip(ins: Instr, ghost rand: u8) returns (flow: Flow)
      requires Valid()
      requires ins.SkipEqImm? || ins.SkipNeImm? || ins.SkipEqReg? || ins.SkipNeReg?
      modifies this
      ensures Valid() && Effect(Snapshot(), flow) == ExecInstr(old(Snapshot()), ins, rand)
    {
      SkipArms(Snapshot(), ins, rand);
      flow := FallThrough;
      match ins
      case SkipEqImm(x, nn) => if v[x] == nn { pc := pc + 2; }
      case SkipNeImm(x, nn) => if v[x] != nn { pc := pc + 2; }
      case SkipEqReg(x, y) => if v[x] == v[y] { pc := pc + 2; }
      case SkipNeReg(x, y) => if v[x] != v[y] { pc := pc + 2; }
    }

    /** The arms that set one register from an operand, a random byte or the delay timer: 6xnn, 7xnn, Cxnn and Fx07. */
    method ExecuteSet(ins: Instr, rand: u8) returns (flow: Flow)
      requires Valid()
      requires ins.LoadImm? || ins.AddImm? || ins.Random? || ins.GetDelay?
      modifies v
      ensures Valid() && Effect(Snapshot(), flow) == ExecInstr(old(Snapshot()), ins, rand)
    {
      ghost var s0 := Snapshot();
      SetArms(s0, ins, rand);
      var x, value := 0, 0;
      match ins {
      case LoadImm(x', nn) => x, value := x', nn;
      case AddImm(x', nn) => x, value := x', WrappingAdd(v[x'], nn);
      case Random(x', nn) => x, value := x', BitAnd(rand, nn);
      case GetDelay(x') => x, value := x', delayTimer;
      }
      v[x] := value;
      flow := FallThrough;
      assert Snapshot() == s0.(v := s0.v[x := value]);
    }

    /** The register-to-register arms that write Vx only: 8xy0 to 8xy3. */
    method ExecuteBitwise(ins: Instr, ghost rand: u8) returns (flow: Flow)
      requires Valid()
      requires ins.Move? || ins.Or? || ins.And? || ins.Xor?
      modifies v
      ensures Valid() && Effect(Snapshot(), flow) == ExecInstr(old(Snapshot()), ins, rand)
    {
      ghost var s0 := Snapshot();
      BitwiseArms(s0, ins, rand);
      var x, value := 0, 0;
      match ins {
      case Move(x', y) => x, value := x', v[y];
      case Or(x', y) => x, value := x', BitOr(v[x'], v[y]);
      case And(x', y) => x, value := x', BitAnd(v[x'], v[y]);
      case Xor(x', y) => x, value := x', BitXor(v[x'], v[y]);
      }
      v[x] := value;
      flow := FallThrough;
      assert Snapshot() == s0.(v := s0.v[x := value]);
    }

    /** The arms that add or subtract and write VF, in the source's order: 8xy4, 8xy5 and 8xy7. */
    method ExecuteArith(ins: Instr, ghost rand: u8) returns (flow: Flow)
      requires Valid()
      requires ins.AddReg? || ins.SubReg? || ins.SubReverse?
      modifies v
      ensures Valid() && Effect(Snapshot(), flow) == ExecInstr(old(Snapshot()), ins, rand)
    {
      ghost var s0 := Snapshot();
      ghost var v1: seq<u8>;
      AluArms(s0, ins, rand);
      match ins {
      case AddReg(x, y) =>
        var sum := OverflowingAdd(v[x], v[y]);
        v[x] := sum.0;
        v[Flag] := if sum.1 then 1 else 0;
        v1 := AluAdd(s0.v, x, y);
      case SubReg(x, y) =>
        v[Flag] := if v[x] > v[y] then 1 else 0;
        v[x] := WrappingSub(v[x], v[y]);
        v1 := AluSub(s0.v, x, y);
      case SubReverse(x, y) =>
        v[Flag] := if v[y] > v[x] then 1 else 0;
        v[x] := WrappingSub(v[y], v[x]);
        v1 := AluSubReverse(s0.v, x, y);
      }
      assert v[..] == v1;
      flow := FallThrough;
      assert Snapshot() == s0.(v := v1);
    }

    /** The shifts, which write Vx and VF and ignore the y nibble: 8xy6 and 8xyE. */
    method ExecuteShift(ins: Instr, ghost rand: u8) returns (flow: Flow)
      requires Valid()
      requires ins.ShiftRight? || ins.ShiftLeft?
      modifies v
      ensures Valid() && Effect(Snapshot(), flow) == ExecInstr(old(Snapshot()), ins, rand)
    {
      ghost var s0 := Snapshot();
      ghost var v1: seq<u8>;
      AluArms(s0, ins, rand);
      match ins {
      case ShiftRight(x, _) =>
        v[Flag] := LowBit(v[x]);
        v[x] := ShiftRight1(v[x]);
        v1 := AluShiftRight(s0.v, x);
      case ShiftLeft(x, _) =>
        v[Flag] := HighBit(v[x]);
        v[x] := ShiftLeft1(v[x]);
        v1 := AluShiftLeft(s0.v, x);
      }
      assert v[..] == v1;
      flow := FallThrough;
      assert Snapshot() == s0.(v := v1);
    }

    /** The arms that set I or a timer: Annn, Fx15, Fx18, Fx1E and Fx29. */
    method ExecuteIndex(ins: Instr, ghost rand: u8) returns (flow: Flow)
      requires Valid()
      requires ins.SetIndex? || ins.SetDelay? || ins.SetSound? || ins.AddIndex? || ins.FontSprite?
      modifies this
      ensures Valid() && Effect(Snapshot(), flow) == ExecInstr(old(Snapshot()), ins, rand)
    {
      ghost var s0 := Snapshot();
      ghost var s1: State;
      IndexArms(s0, ins, rand);
      match ins {
      case SetIndex(a) =>
        i := a;
        s1 := s0.(i := a);
      case SetDelay(x) =>
        delayTimer := v[x];
        s1 := s0.(delayTimer := s0.v[x]);
      case SetSound(x) =>
        soundTimer := v[x];
        s1 := s0.(soundTimer := s0.v[x]);
      case AddIndex(x) =>
        i := (i + v[x] as nat) % UsizeModulus;
        s1 := s0.(i := (s0.i + s0.v[x] as nat) % UsizeModulus);
      case FontSprite(x) =>
        i := v[x] as nat * 5;
        s1 := s0.(i := s0.v[x] as nat * 5);
      }
      flow := FallThrough;
      assert Snapshot() == s1;
    }

    /** One arm of the opcode `match`; `rand` is the byte `thread_rng` would give Cxnn. */
    method ExecuteInstr(ins: Instr, rand: u8) returns (flow: Flow)
      requires Valid()
      modifies this, memory, v, screen, pressedKeys
      ensures Valid() && Effect(Snapshot(), flow) == ExecInstr(old(Snapshot()), ins, rand)
    {
      if ins.Return? || ins.Jump? || ins.Call? || ins.JumpOffset? {
        flow := ExecuteFlow(ins, rand);
      } else if ins.SkipEqImm? || ins.SkipNeImm? || ins.SkipEqReg? || ins.SkipNeReg? {
        flow := ExecuteSkip(ins, rand);
      } else if ins.LoadImm? || ins.AddImm? || ins.Random? || ins.GetDelay? {
        flow := ExecuteSet(ins, rand);
      } else if ins.Move? || ins.Or? || ins.And? || ins.Xor? {
        flow := ExecuteBitwise(ins, rand);
      } else if ins.AddReg? || ins.SubReg? || ins.SubReverse? {
        flow := ExecuteArith(ins, rand);
      } else if ins.ShiftRight? || ins.ShiftLeft? {
        flow := ExecuteShift(ins, rand);
      } else if ins.SetIndex? || ins.SetDelay? || ins.SetSound? || ins.AddIndex? || ins.FontSprite? {
        flow := ExecuteIndex(ins, rand);
      } else {
        match ins
        case ClearScreen => ClearScreen(); flow := FallThrough;
        case Draw(x, y, n) => flow := Draw(x, y, n);
        case SkipPressed(x) => flow := SkipKey(x, true);
        case SkipNotPressed(x) => flow := SkipKey(x, false);
        case WaitKey(x) => flow := WaitKey(x);
        case StoreBcd(x) => flow := StoreBcd(x);
        case StoreRegs(x) => flow := StoreRegs(x);
        case LoadRegs(x) => flow := LoadRegs(x);
        case Illegal => flow := IllegalPanic;
      }
    }

    /** One pass through the loop body after the timers: fetch, decode, execute, `pc += 2`. */
    method Execute(rand: u8) returns (outcome: Outcome)
      requires Valid()
      modifies this, memory, v, screen, pressedKeys
      ensures Valid() && StepResult(outcome, Snapshot()) == Exec(old(Snapshot()), rand)
    {
      if pc + 1 >= MemorySize {
        return OutOfBounds;
      }
      var ins := Decode(memory[pc], memory[pc + 1]);
      var flow := ExecuteInstr(ins, rand);
      match flow
      case FallThrough => pc := pc + 2; outcome := Running;
      case Continue => outcome := Running;
      case Break => outcome := Halted;
      case IllegalPanic => outcome := IllegalInstruction;
      case IndexPanic => outcome := OutOfBounds;
      case Blocked => outcome := AwaitingKey;
    }

    /** One pass through the loop of `Vm::run`: the timers tick, then the instruction at pc runs. */
    method Step(rand: u8) returns (outcome: Outcome)
      requires Valid()
      modifies this, memory, v, screen, pressedKeys
      ensures Valid() && StepResult(outcome, Snapshot()) == Cycle(old(Snapshot()), rand)
    {
      Tick();
      outcome := Execute(rand);
    }

    /**
     * The loop of `Vm::run`, cycle k drawing rands[k] for Cxnn: it stops at
     * the first cycle that does not report `Running`, or after |rands| cycles.
     */
    method Run(rands: seq<u8>) returns (outcome: Outcome, cycles: nat)
      requires Valid()
      modifies this, memory, v, screen, pressedKeys
      ensures Valid() && RunResult(outcome, Snapshot(), cycles) == Machine.Run(old(Snapshot()), rands)
    {
      ghost var s0 := Snapshot();
      outcome, cycles := Running, 0;
      while cycles < |rands|
        invariant Valid() && cycles <= |rands| && outcome == Running
        invariant Machine.Run(s0, rands[..cycles]) == RunResult(Running, Snapshot(), cycles)
        decreases |rands| - cycles
      {
        RunOneMore(s0, rands, cycles);
        outcome := Step(rands[cycles]);
        cycles := cycles + 1;
        if outcome != Running {
          RunStopsForGood(s0, rands, cycles);
          return;
        }
      }
      assert rands[..cycles] == rands;
    }
  }
}
