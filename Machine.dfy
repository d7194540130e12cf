/**
 * The interpreter's machine state and one cycle of its run loop, as values:
 * `Exec` is one pass through the opcode `match` of `Vm::run` followed by the
 * common `pc += 2`, `Tick` is the saturating decrement of both timers at the
 * top of the loop, and `Run` repeats the cycle. The class in VmClass.dfy
 * performs the same steps in place and is proved to agree with these
 * functions; the Alu, Display, Control and Memory modules state what the
 * instructions promise.
 */
module Machine {
  import opened Bytes
  import opened Options
  import opened Input
  import opened Keypad
  import opened Opcodes

  const MemorySize: nat := 0x1000
  const ProgramStart: nat := 0x200
  const ScreenHeight: nat := 32
  const ScreenWidth: nat := 64

  /** VF, the register several instructions write their flag to. */
  const Flag: Reg := 0xF

  /** `FONT_SET`: the sixteen 5-byte hex digit sprites copied to address 0. */
  const FontSet: seq<u8> := [
    0xf0, 0x90, 0x90, 0x90, 0xf0, 0x20, 0x60, 0x20, 0x20, 0x70, 0xf0, 0x10, 0xf0, 0x80, 0xf0, 0xf0,
    0x10, 0xf0, 0x10, 0xf0, 0x90, 0x90, 0xf0, 0x10, 0x10, 0xf0, 0x80, 0xf0, 0x10, 0xf0, 0xf0, 0x80,
    0xf0, 0x90, 0xf0, 0xf0, 0x10, 0x20, 0x40, 0x40, 0xf0, 0x90, 0xf0, 0x90, 0xf0, 0xf0, 0x90, 0xf0,
    0x10, 0xf0, 0xf0, 0x90, 0xf0, 0x90, 0x90, 0xe0, 0x90, 0xe0, 0x90, 0xe0, 0xf0, 0x80, 0x80, 0x80,
    0xf0, 0xe0, 0x90, 0x90, 0x90, 0xe0, 0xf0, 0x80, 0xf0, 0x80, 0xf0, 0xf0, 0x80, 0xf0, 0x80, 0x80]

  /**
   * The fields of `Vm` the interpreter core reads and writes. `pc` and `i`
   * are `usize` values, so they are not limited to 12 bits; `stack` has no
   * bound; `inputQueue` stands for the events waiting in the input channel.
   */
  datatype State = State(
    memory: seq<u8>,
    pc: nat,
    v: seq<u8>,
    i: nat,
    stack: seq<nat>,
    screen: seq<seq<bool>>,
    delayTimer: u8,
    soundTimer: u8,
    pressedKeys: seq<bool>,
    inputQueue: seq<InputEvent>)

  /** A 32-row, 64-column grid of pixels, `[[bool; 64]; 32]`. */
  predicate IsScreen(g: seq<seq<bool>>)
  {
    |g| == ScreenHeight && forall r :: 0 <= r < ScreenHeight ==> |g[r]| == ScreenWidth
  }

  /** The sizes the Rust types fix, and `i` within `usize`. */
  predicate WellFormed(s: State)
  {
    && |s.memory| == MemorySize
    && |s.v| == 16
    && s.i < UsizeModulus
    && IsScreen(s.screen)
    && |s.pressedKeys| == KeyCount
  }

  /** The screen with every pixel off. */
  function BlankScreen(): (g: seq<seq<bool>>)
    ensures IsScreen(g)
    ensures forall r, c :: 0 <= r < ScreenHeight && 0 <= c < ScreenWidth ==> !g[r][c]
  {
    seq(ScreenHeight, _ => seq(ScreenWidth, _ => false))
  }

  /** The state `Vm::run` builds from a 4096-byte image: font set at 0, everything else zero. */
  function Boot(rom: seq<u8>): (s: State)
    requires |rom| == MemorySize
    ensures WellFormed(s)
  {
    State(FontSet + rom[|FontSet|..], ProgramStart, seq(16, _ => 0), 0, [], BlankScreen(), 0, 0,
          seq(KeyCount, _ => false), [])
  }

  /** How an arm of the opcode `match` ends: fall through to `pc += 2`, `continue`, `break`, or a panic. */
  datatype Flow = FallThrough | Continue | Break | IllegalPanic | IndexPanic | Blocked

  /** The state after an arm, and how the arm ended. */
  datatype Effect = Effect(state: State, flow: Flow)

  /**
   * What a cycle reports: the loop goes on (`Running`), the program returned
   * with an empty stack (`Halted`), the interpreter panicked on an illegal
   * instruction or on an index out of range, or `Fx0A` found no key press
   * among the queued events (`AwaitingKey`, where the original blocks).
   */
  datatype Outcome = Running | Halted | IllegalInstruction | OutOfBounds | AwaitingKey

  datatype StepResult = StepResult(outcome: Outcome, state: State)

  function Min(a: nat, b: nat): nat { if a < b then a else b }

  // ---------------------------------------------------------------------------
  // Register arithmetic (8xy4 to 8xyE). Each follows the source's order of
  // writes: where VF is written first, a later read of VF sees the flag.

  /** 8xy4: `overflowing_add`, then Vx := sum, then VF := carry. */
  function AluAdd(v: seq<u8>, x: Reg, y: Reg): (r: seq<u8>)
    requires |v| == 16
    ensures |r| == 16
  {
    var sum := OverflowingAdd(v[x], v[y]);
    v[x := sum.0][Flag := if sum.1 then 1 else 0]
  }

  /** 8xy5: VF := (Vx > Vy), then Vx := Vx - Vy wrapping. */
  function AluSub(v: seq<u8>, x: Reg, y: Reg): (r: seq<u8>)
    requires |v| == 16
    ensures |r| == 16
  {
    var v1 := v[Flag := if v[x] > v[y] then 1 else 0];
    v1[x := WrappingSub(v1[x], v1[y])]
  }

  /** 8xy6: VF := low bit of Vx, then Vx >>= 1. */
  function AluShiftRight(v: seq<u8>, x: Reg): (r: seq<u8>)
    requires |v| == 16
    ensures |r| == 16
  {
    var v1 := v[Flag := LowBit(v[x])];
    v1[x := ShiftRight1(v1[x])]
  }

  /** 8xy7: VF := (Vy > Vx), then Vx := Vy - Vx wrapping. */
  function AluSubReverse(v: seq<u8>, x: Reg, y: Reg): (r: seq<u8>)
    requires |v| == 16
    ensures |r| == 16
  {
    var v1 := v[Flag := if v[y] > v[x] then 1 else 0];
    v1[x := WrappingSub(v1[y], v1[x])]
  }

  /** 8xyE: VF := top bit of Vx, then Vx <<= 1. */
  function AluShiftLeft(v: seq<u8>, x: Reg): (r: seq<u8>)
    requires |v| == 16
    ensures |r| == 16
  {
    var v1 := v[Flag := HighBit(v[x])];
    v1[x := ShiftLeft1(v1[x])]
  }

  // ---------------------------------------------------------------------------
  // The display.

  /**
   * Whether a sprite drawn at (vx, vy) has a set bit over pixel (r, c): the
   * sprite row and column that land on (r, c) after wrapping modulo 32 and 64.
   */
  predicate SpriteCovers(sprite: seq<u8>, vx: nat, vy: nat, r: nat, c: nat)
  {
    var row, col := (r - vy) % ScreenHeight, (c - vx) % ScreenWidth;
    row < |sprite| && col < 8 && SpriteBit(sprite[row], col)
  }

  /** The screen after XOR-drawing `sprite` at (vx, vy) with toroidal wrap. */
  function DrawSprite(screen: seq<seq<bool>>, sprite: seq<u8>, vx: nat, vy: nat): (g: seq<seq<bool>>)
    requires IsScreen(screen)
    ensures IsScreen(g)
  {
    seq(ScreenHeight, r requires 0 <= r < ScreenHeight =>
      seq(ScreenWidth, c requires 0 <= c < ScreenWidth =>
        screen[r][c] != SpriteCovers(sprite, vx, vy, r, c)))
  }

  /** Whether some set sprite bit lands on a pixel that is on: what Dxyn reports in VF. */
  predicate Collides(screen: seq<seq<bool>>, sprite: seq<u8>, vx: nat, vy: nat)
    requires IsScreen(screen)
  {
    exists row, col :: 0 <= row < |sprite| && 0 <= col < 8 && SpriteBit(sprite[row], col)
      && screen[(row + vy) % ScreenHeight][(col + vx) % ScreenWidth]
  }

  // ---------------------------------------------------------------------------
  // The arms of the opcode `match`.

  /** An arm that only changes registers and falls through. */
  function WithRegs(s: State, v: seq<u8>): Effect
  {
    Effect(s.(v := v), FallThrough)
  }

  /** A skip arm: `pc += 2` when the condition holds, then fall through. */
  function SkipIf(s: State, cond: bool): Effect
  {
    Effect(if cond then s.(pc := s.pc + 2) else s, FallThrough)
  }

  /** 00EE: pop into pc and fall through, or `break` when the stack is empty. */
  function ExecReturn(s: State): Effect
  {
    if s.stack == [] then Effect(s, Break)
    else Effect(s.(pc := s.stack[|s.stack| - 1], stack := s.stack[..|s.stack| - 1]), FallThrough)
  }

  /**
   * The sprite bytes Dxyn reads before it panics: rows `memory[i + row]` for
   * `row < n` as far as memory reaches.
   */
  function SpriteRows(s: State, n: nat): (sprite: seq<u8>)
    requires WellFormed(s)
    ensures |sprite| <= n
  {
    if s.i >= MemorySize then [] else s.memory[s.i .. s.i + Min(n, MemorySize - s.i)]
  }

  /** Dxyn: VF := 0, then XOR the n-row sprite at I onto the screen at (Vx, Vy), VF := collision. */
  function ExecDraw(s: State, x: Reg, y: Reg, n: Reg): (e: Effect)
    requires WellFormed(s)
    ensures WellFormed(e.state)
  {
    var vx, vy := s.v[x] as nat, s.v[y] as nat;
    var sprite := SpriteRows(s, n);
    var st := s.(screen := DrawSprite(s.screen, sprite, vx, vy),
                 v := s.v[Flag := if Collides(s.screen, sprite, vx, vy) then 1 else 0]);
    Effect(st, if |sprite| < n then IndexPanic else FallThrough)
  }

  /** Ex9E / ExA1: drain the input queue, then skip when key Vx is (not) pressed. */
  function ExecSkipKey(s: State, x: Reg, whenPressed: bool): (e: Effect)
    requires WellFormed(s)
    ensures WellFormed(e.state)
  {
    var st := s.(pressedKeys := ApplyEvents(s.pressedKeys, s.inputQueue), inputQueue := []);
    var k := s.v[x] as nat;
    if k >= KeyCount then Effect(st, IndexPanic)
    else SkipIf(st, st.pressedKeys[k] == whenPressed)
  }

  /** Fx0A: consume events up to the first key press and put its index in Vx. */
  function ExecWaitKey(s: State, x: Reg): (e: Effect)
    requires WellFormed(s)
    ensures WellFormed(e.state)
  {
    var w := WaitForKey(s.pressedKeys, s.inputQueue);
    var st := s.(pressedKeys := w.keys, inputQueue := w.rest);
    match w.found
    case None => Effect(st, Blocked)
    case Some(k) => WithRegs(st, st.v[x := k as u8])
  }

  /** The decimal digits of a byte, hundreds first, as Fx33 stores them. */
  function BcdDigits(b: u8): seq<u8>
  {
    [b / 100, (b / 10) % 10, b % 10]
  }

  /** Fx33: the three digits of Vx at I, I+1, I+2; a panic before any write when I+2 is out of range. */
  function ExecBcd(s: State, x: Reg): (e: Effect)
    requires WellFormed(s)
    ensures WellFormed(e.state)
  {
    if s.i + 2 >= MemorySize then Effect(s, IndexPanic)
    else
      var d := BcdDigits(s.v[x]);
      Effect(s.(memory := s.memory[s.i := d[0]][s.i + 1 := d[1]][s.i + 2 := d[2]]), FallThrough)
  }

  /** Memory after Fx55: bytes I..I+x hold V0..Vx, as far as memory reaches. */
  function StoredMemory(memory: seq<u8>, i: nat, v: seq<u8>, x: Reg): (m: seq<u8>)
    requires |memory| == MemorySize && |v| == 16
    ensures |m| == MemorySize
  {
    seq(MemorySize, a requires 0 <= a < MemorySize =>
      if i <= a <= i + x then v[a - i] else memory[a])
  }

  /** Registers after Fx65: V0..Vx hold bytes I..I+x, as far as memory reaches. */
  function LoadedRegs(memory: seq<u8>, i: nat, v: seq<u8>, x: Reg): (r: seq<u8>)
    requires |memory| == MemorySize && |v| == 16
    ensures |r| == 16
  {
    seq(16, k requires 0 <= k < 16 =>
      if k <= x && i + k < MemorySize then memory[i + k] else v[k])
  }

  /** Fx55: V0..Vx to memory from I on; a panic if memory runs out first. */
  function ExecStoreRegs(s: State, x: Reg): (e: Effect)
    requires WellFormed(s)
    ensures WellFormed(e.state)
  {
    Effect(s.(memory := StoredMemory(s.memory, s.i, s.v, x)),
           if s.i + x >= MemorySize then IndexPanic else FallThrough)
  }

  /** Fx65: V0..Vx from memory from I on; a panic if memory runs out first. */
  function ExecLoadRegs(s: State, x: Reg): (e: Effect)
    requires WellFormed(s)
    ensures WellFormed(e.state)
  {
    Effect(s.(v := LoadedRegs(s.memory, s.i, s.v, x)),
           if s.i + x >= MemorySize then IndexPanic else FallThrough)
  }

  /** One arm of the opcode `match`, given the random byte Cxnn would draw. */
  function ExecInstr(s: State, ins: Instr, rand: u8): (e: Effect)
    requires WellFormed(s)
    ensures WellFormed(e.state)
  {
    match ins
    case ClearScreen => Effect(s.(screen := BlankScreen()), FallThrough)
    case Return => ExecReturn(s)
    case Jump(a) => Effect(s.(pc := a), Continue)
    case Call(a) => Effect(s.(stack := s.stack + [s.pc], pc := a), Continue)
    case SkipEqImm(x, nn) => SkipIf(s, s.v[x] == nn)
    case SkipNeImm(x, nn) => SkipIf(s, s.v[x] != nn)
    case SkipEqReg(x, y) => SkipIf(s, s.v[x] == s.v[y])
    case LoadImm(x, nn) => WithRegs(s, s.v[x := nn])
    case AddImm(x, nn) => WithRegs(s, s.v[x := WrappingAdd(s.v[x], nn)])
    case Move(x, y) => WithRegs(s, s.v[x := s.v[y]])
    case Or(x, y) => WithRegs(s, s.v[x := BitOr(s.v[x], s.v[y])])
    case And(x, y) => WithRegs(s, s.v[x := BitAnd(s.v[x], s.v[y])])
    case Xor(x, y) => WithRegs(s, s.v[x := BitXor(s.v[x], s.v[y])])
    case AddReg(x, y) => WithRegs(s, AluAdd(s.v, x, y))
    case SubReg(x, y) => WithRegs(s, AluSub(s.v, x, y))
    case ShiftRight(x, _) => WithRegs(s, AluShiftRight(s.v, x))
    case SubReverse(x, y) => WithRegs(s, AluSubReverse(s.v, x, y))
    case ShiftLeft(x, _) => WithRegs(s, AluShiftLeft(s.v, x))
    case SkipNeReg(x, y) => SkipIf(s, s.v[x] != s.v[y])
    case SetIndex(a) => Effect(s.(i := a), FallThrough)
    case JumpOffset(a) => Effect(s.(pc := a + s.v[0] as nat), Continue)
    case Random(x, nn) => WithRegs(s, s.v[x := BitAnd(rand, nn)])
    case Draw(x, y, n) => ExecDraw(s, x, y, n)
    case SkipPressed(x) => ExecSkipKey(s, x, true)
    case SkipNotPressed(x) => ExecSkipKey(s, x, false)
    case GetDelay(x) => WithRegs(s, s.v[x := s.delayTimer])
    case WaitKey(x) => ExecWaitKey(s, x)
    case SetDelay(x) => Effect(s.(delayTimer := s.v[x]), FallThrough)
    case SetSound(x) => Effect(s.(soundTimer := s.v[x]), FallThrough)
    case AddIndex(x) => Effect(s.(i := (s.i + s.v[x] as nat) % UsizeModulus), FallThrough)
    case FontSprite(x) => Effect(s.(i := s.v[x] as nat * 5), FallThrough)
    case StoreBcd(x) => ExecBcd(s, x)
    case StoreRegs(x) => ExecStoreRegs(s, x)
    case LoadRegs(x) => ExecLoadRegs(s, x)
    case Illegal => Effect(s, IllegalPanic)
  }

  /** The instruction at pc, or None when `memory[pc]` or `memory[pc + 1]` is out of range. */
  function Fetch(s: State): Option<Instr>
    requires WellFormed(s)
  {
    if s.pc + 1 < MemorySize then Some(Decode(s.memory[s.pc], s.memory[s.pc + 1])) else None
  }

  /** The end of a pass through the loop body: `pc += 2` after a falling-through arm. */
  function Finish(e: Effect): StepResult
  {
    match e.flow
    case FallThrough => StepResult(Running, e.state.(pc := e.state.pc + 2))
    case Continue => StepResult(Running, e.state)
    case Break => StepResult(Halted, e.state)
    case IllegalPanic => StepResult(IllegalInstruction, e.state)
    case IndexPanic => StepResult(OutOfBounds, e.state)
    case Blocked => StepResult(AwaitingKey, e.state)
  }

  /** Fetch, decode and execute the instruction at pc. */
  function Exec(s: State, rand: u8): (r: StepResult)
    requires WellFormed(s)
    ensures WellFormed(r.state)
  {
    match Fetch(s)
    case None => StepResult(OutOfBounds, s)
    case Some(ins) => Finish(ExecInstr(s, ins, rand))
  }

  /** The top of the loop: both timers count down by one, stopping at zero. */
  function Tick(s: State): (t: State)
  {
    s.(delayTimer := SaturatingSub(s.delayTimer, 1), soundTimer := SaturatingSub(s.soundTimer, 1))
  }

  /** One pass through the loop of `Vm::run`. */
  function Cycle(s: State, rand: u8): (r: StepResult)
    requires WellFormed(s)
    ensures WellFormed(r.state)
  {
    Exec(Tick(s), rand)
  }

  datatype RunResult = RunResult(outcome: Outcome, state: State, cycles: nat)

  /**
   * The loop of `Vm::run` for at most |rands| cycles, cycle k drawing
   * rands[k] if it executes Cxnn; it stops at the first cycle that does not
   * report `Running`.
   */
  function Run(s: State, rands: seq<u8>): (r: RunResult)
    requires WellFormed(s)
    ensures WellFormed(r.state)
    ensures r.cycles <= |rands|
    ensures r.outcome == Running ==> r.cycles == |rands|
    ensures r.outcome != Running ==> r.cycles >= 1
    decreases |rands|
  {
    if rands == [] then RunResult(Running, s, 0)
    else
      var c := Cycle(s, rands[0]);
      if c.outcome != Running then RunResult(c.outcome, c.state, 1)
      else
        var rest := Run(c.state, rands[1..]);
        RunResult(rest.outcome, rest.state, rest.cycles + 1)
  }
}
