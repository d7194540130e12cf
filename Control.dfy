/**
 * How a cycle moves the program counter and how it ends: which
 * instructions advance pc by two, which skip, jump, call or return, when
 * the loop halts, panics or waits for a key, and how the timers count.
 */
module Control {
  import opened Bytes
  import opened Options
  import opened Keypad
  import opened Opcodes
  import opened Machine

  /** Whether a skip instruction's condition holds in `s` (false for every other instruction). */
  predicate SkipTaken(s: State, ins: Instr)
    requires WellFormed(s)
  {
    var keys := ApplyEvents(s.pressedKeys, s.inputQueue);
    match ins
    case SkipEqImm(x, nn) => s.v[x] == nn
    case SkipNeImm(x, nn) => s.v[x] != nn
    case SkipEqReg(x, y) => s.v[x] == s.v[y]
    case SkipNeReg(x, y) => s.v[x] != s.v[y]
    case SkipPressed(x) => s.v[x] as nat < KeyCount && keys[s.v[x]]
    case SkipNotPressed(x) => s.v[x] as nat < KeyCount && !keys[s.v[x]]
    case _ => false
  }

  /**
   * Where pc goes after a cycle that keeps running: the target of a jump or
   * call, V0 plus the target for Bnnn, the return address plus two for
   * 00EE, and otherwise the next instruction, or the one after it when a
   * skip is taken.
   */
  function NextPc(s: State, ins: Instr): nat
    requires WellFormed(s)
  {
    match ins
    case Jump(a) => a
    case Call(a) => a
    case JumpOffset(a) => a + s.v[0] as nat
    case Return => if s.stack == [] then s.pc else s.stack[|s.stack| - 1] + 2
    case _ => if SkipTaken(s, ins) then s.pc + 4 else s.pc + 2
  }

  /** The instructions that panic on an index out of range, and when they do. */
  predicate IndexFault(s: State, ins: Instr)
    requires WellFormed(s)
  {
    match ins
    case Draw(_, _, n) => n > 0 && s.i + n > MemorySize
    case SkipPressed(x) => s.v[x] as nat >= KeyCount
    case SkipNotPressed(x) => s.v[x] as nat >= KeyCount
    case StoreBcd(_) => s.i + 2 >= MemorySize
    case StoreRegs(x) => s.i + x >= MemorySize
    case LoadRegs(x) => s.i + x >= MemorySize
    case _ => false
  }

  /** No event in the queue is a key press. */
  predicate NoPress(events: seq<Input.InputEvent>)
  {
    forall m :: 0 <= m < |events| ==> !IsPress(events[m])
  }

  lemma SpriteRowsShort(s: State, n: nat)
    requires WellFormed(s)
    ensures |SpriteRows(s, n)| < n <==> n > 0 && s.i + n > MemorySize
  {
  }

  /** Exec once the fetched instruction is known: its arm, then the end of the pass. */
  lemma ExecFetched(s: State, ins: Instr, rand: u8)
    requires WellFormed(s) && Fetch(s) == Some(ins)
    ensures Exec(s, rand) == Finish(ExecInstr(s, ins, rand))
  {
  }

  /** A cycle that keeps running leaves pc where `NextPc` says. */
  lemma PcDiscipline(s: State, rand: u8)
    requires WellFormed(s)
    ensures Exec(s, rand).outcome == Running ==>
      Fetch(s).Some? && Exec(s, rand).state.pc == NextPc(s, Fetch(s).value)
  {
    if Fetch(s).Some? {
      ExecFetched(s, Fetch(s).value, rand);
      ArmPc(s, Fetch(s).value, rand);
    }
  }

  /** An arm that keeps the loop running leaves pc at `NextPc`, counting the `pc += 2` after it. */
  lemma ArmPc(s: State, ins: Instr, rand: u8)
    requires WellFormed(s)
    ensures var r := Finish(ExecInstr(s, ins, rand));
      r.outcome == Running ==> r.state.pc == NextPc(s, ins)
  {
    if ins.SkipPressed? || ins.SkipNotPressed? || ins.WaitKey? {
      ArmPcKeys(s, ins, rand);
    } else if ins.Draw? || ins.StoreBcd? || ins.StoreRegs? || ins.LoadRegs? || ins.ClearScreen? {
      ArmPcMemory(s, ins, rand);
    } else if ins.Return? || ins.Jump? || ins.Call? || ins.JumpOffset? || ins.Illegal? {
      ArmPcFlow(s, ins, rand);
    } else {
      ArmPcRegisters(s, ins, rand);
    }
  }

  lemma ArmPcKeys(s: State, ins: Instr, rand: u8)
    requires WellFormed(s) && (ins.SkipPressed? || ins.SkipNotPressed? || ins.WaitKey?)
    ensures var r := Finish(ExecInstr(s, ins, rand));
      r.outcome == Running ==> r.state.pc == NextPc(s, ins)
  {
    if ins.WaitKey? {
      assert ExecInstr(s, ins, rand) == ExecWaitKey(s, ins.x);
    }
  }

  lemma ArmPcMemory(s: State, ins: Instr, rand: u8)
    requires WellFormed(s) && (ins.Draw? || ins.StoreBcd? || ins.StoreRegs? || ins.LoadRegs? || ins.ClearScreen?)
    ensures var r := Finish(ExecInstr(s, ins, rand));
      r.outcome == Running ==> r.state.pc == NextPc(s, ins)
  {
  }

  lemma ArmPcFlow(s: State, ins: Instr, rand: u8)
    requires WellFormed(s) && (ins.Return? || ins.Jump? || ins.Call? || ins.JumpOffset? || ins.Illegal?)
    ensures var r := Finish(ExecInstr(s, ins, rand));
      r.outcome == Running ==> r.state.pc == NextPc(s, ins)
  {
  }

  lemma ArmPcRegisters(s: State, ins: Instr, rand: u8)
    requires WellFormed(s)
    requires !(ins.SkipPressed? || ins.SkipNotPressed? || ins.WaitKey?)
    requires !(ins.Draw? || ins.StoreBcd? || ins.StoreRegs? || ins.LoadRegs? || ins.ClearScreen?)
    requires !(ins.Return? || ins.Jump? || ins.Call? || ins.JumpOffset? || ins.Illegal?)
    ensures var r := Finish(ExecInstr(s, ins, rand));
      r.outcome == Running ==> r.state.pc == NextPc(s, ins)
  {
  }

  /** The loop ends normally exactly on 00EE with an empty stack. */
  lemma HaltsIffReturnOnEmptyStack(s: State, rand: u8)
    requires WellFormed(s)
    ensures Exec(s, rand).outcome == Halted <==> Fetch(s) == Some(Return) && s.stack == []
  {
  }

  /** An illegal instruction panics, and it is the only thing that does so with that message. */
  lemma IllegalIffIllegalInstruction(s: State, rand: u8)
    requires WellFormed(s)
    ensures Exec(s, rand).outcome == IllegalInstruction <==> Fetch(s) == Some(Illegal)
    ensures Fetch(s) == Some(Illegal) ==> Exec(s, rand).state == s
  {
  }

  /** A cycle panics on an index exactly when the fetch or the instruction's own access is out of range. */
  lemma OutOfBoundsIffFault(s: State, rand: u8)
    requires WellFormed(s)
    ensures Exec(s, rand).outcome == OutOfBounds <==> Fetch(s).None? || IndexFault(s, Fetch(s).value)
  {
    if Fetch(s).Some? {
      var ins := Fetch(s).value;
      if ins.Draw? {
        SpriteRowsShort(s, ins.n);
      } else if ins.WaitKey? {
        var w := WaitForKey(s.pressedKeys, s.inputQueue);
        assert Exec(s, rand).outcome == (if w.found.Some? then Running else AwaitingKey);
      }
    }
  }

  /** Fx0A stops the loop exactly when no queued event is a key press. */
  lemma AwaitsIffNoPress(s: State, rand: u8)
    requires WellFormed(s)
    ensures Exec(s, rand).outcome == AwaitingKey <==>
      Fetch(s).Some? && Fetch(s).value.WaitKey? && NoPress(s.inputQueue)
  {
    WaitForKeyFindsIffPress(s.pressedKeys, s.inputQueue);
    if Fetch(s).Some? {
      var ins := Fetch(s).value;
      ExecFetched(s, ins, rand);
      if ins.WaitKey? {
        assert ExecInstr(s, ins, rand) == ExecWaitKey(s, ins.x);
      } else {
        OnlyWaitKeyBlocks(s, ins, rand);
      }
    }
  }

  /** No instruction but Fx0A stops the loop to wait for a key. */
  lemma OnlyWaitKeyBlocks(s: State, ins: Instr, rand: u8)
    requires WellFormed(s)
    ensures ExecInstr(s, ins, rand).flow == Blocked ==> ins.WaitKey?
  {
  }

  /**
   * Fx0A waiting for a key: either it finds the first press in the queue,
   * writes that key's index to Vx and leaves the later events queued, or
   * it applies every event, keeps pc on the Fx0A and reports `AwaitingKey`.
   */
  lemma WaitKeyEffect(s: State, x: Reg, rand: u8)
    requires WellFormed(s) && Fetch(s) == Some(WaitKey(x))
    ensures NoPress(s.inputQueue) ==>
      Exec(s, rand) == StepResult(AwaitingKey,
        s.(pressedKeys := ApplyEvents(s.pressedKeys, s.inputQueue), inputQueue := []))
    ensures forall j :: 0 <= j < |s.inputQueue| && IsPress(s.inputQueue[j]) && NoPress(s.inputQueue[..j]) ==>
      Exec(s, rand) == StepResult(Running,
        s.(pc := s.pc + 2,
           v := s.v[x := Input.KeyIdx(s.inputQueue[j]).value as u8],
           pressedKeys := ApplyEvents(s.pressedKeys, s.inputQueue[..j + 1]),
           inputQueue := s.inputQueue[j + 1..]))
  {
    ExecFetched(s, WaitKey(x), rand);
    if NoPress(s.inputQueue) {
      WaitForKeyWithoutPress(s.pressedKeys, s.inputQueue);
    }
    forall j | 0 <= j < |s.inputQueue| && IsPress(s.inputQueue[j]) && NoPress(s.inputQueue[..j])
      ensures Exec(s, rand) == StepResult(Running,
        s.(pc := s.pc + 2,
           v := s.v[x := Input.KeyIdx(s.inputQueue[j]).value as u8],
           pressedKeys := ApplyEvents(s.pressedKeys, s.inputQueue[..j + 1]),
           inputQueue := s.inputQueue[j + 1..]))
    {
      forall m | 0 <= m < j ensures !IsPress(s.inputQueue[m]) {
        assert s.inputQueue[..j][m] == s.inputQueue[m];
      }
      WaitForKeyStopsAtFirstPress(s.pressedKeys, s.inputQueue, j);
    }
  }

  /** Ex9E and ExA1 drain the whole queue into the keypad before testing the key. */
  lemma SkipKeyDrains(s: State, rand: u8)
    requires WellFormed(s) && Fetch(s).Some?
    requires Fetch(s).value.SkipPressed? || Fetch(s).value.SkipNotPressed?
    ensures Exec(s, rand).state.pressedKeys == ApplyEvents(s.pressedKeys, s.inputQueue)
    ensures Exec(s, rand).state.inputQueue == []
  {
    var ins := Fetch(s).value;
    ExecFetched(s, ins, rand);
    assert ExecInstr(s, ins, rand) == ExecSkipKey(s, ins.x, ins.SkipPressed?);
  }

  /** 1nnn moves pc to nnn and changes nothing else. */
  lemma JumpEffect(s: State, a: Addr, rand: u8)
    requires WellFormed(s) && Fetch(s) == Some(Jump(a))
    ensures Exec(s, rand) == StepResult(Running, s.(pc := a))
  {
  }

  /** Bnnn moves pc to nnn + V0 whatever the x nibble holds. */
  lemma JumpOffsetEffect(s: State, rand: u8)
    requires WellFormed(s) && s.pc + 1 < MemorySize && s.memory[s.pc] / 16 == 0xB
    ensures var a := (s.memory[s.pc] % 16) as nat * 256 + s.memory[s.pc + 1] as nat;
      Exec(s, rand) == StepResult(Running, s.(pc := a + s.v[0] as nat))
  {
  }

  /** 2nnn pushes the address of the call itself and moves pc to nnn. */
  lemma CallEffect(s: State, a: Addr, rand: u8)
    requires WellFormed(s) && Fetch(s) == Some(Call(a))
    ensures Exec(s, rand) == StepResult(Running, s.(stack := s.stack + [s.pc], pc := a))
  {
  }

  /** 00EE pops the last pushed address and resumes two bytes after it. */
  lemma ReturnEffect(s: State, rand: u8)
    requires WellFormed(s) && Fetch(s) == Some(Return) && s.stack != []
    ensures Exec(s, rand) ==
      StepResult(Running, s.(pc := s.stack[|s.stack| - 1] + 2, stack := s.stack[..|s.stack| - 1]))
  {
  }

  /**
   * A call and the return that matches it: a subroutine that leaves the
   * stack as the call made it returns to the instruction after the call
   * with the caller's stack.
   */
  lemma CallThenReturn(s: State, u: State, a: Addr, rand1: u8, rand2: u8)
    requires WellFormed(s) && Fetch(s) == Some(Call(a))
    requires WellFormed(u) && Fetch(u) == Some(Return) && u.stack == Exec(s, rand1).state.stack
    ensures Exec(u, rand2) == StepResult(Running, u.(pc := s.pc + 2, stack := s.stack))
  {
    CallEffect(s, a, rand1);
    assert u.stack[..|u.stack| - 1] == s.stack;
  }

  /** Both timers count down by one per cycle and stay at zero. */
  lemma TickTimers(s: State)
    ensures Tick(s).delayTimer == (if s.delayTimer == 0 then 0 else s.delayTimer - 1)
    ensures Tick(s).soundTimer == (if s.soundTimer == 0 then 0 else s.soundTimer - 1)
    ensures Tick(s) == s.(delayTimer := Tick(s).delayTimer, soundTimer := Tick(s).soundTimer)
  {
  }

  /** Over a cycle the timers only tick, unless the cycle executes Fx15 or Fx18. */
  lemma CycleTimers(s: State, rand: u8)
    requires WellFormed(s)
    ensures var t, r := Tick(s), Cycle(s, rand).state;
      && (Fetch(t).None? || !Fetch(t).value.SetDelay? ==> r.delayTimer == t.delayTimer)
      && (Fetch(t).None? || !Fetch(t).value.SetSound? ==> r.soundTimer == t.soundTimer)
  {
    var t := Tick(s);
    if Fetch(t).Some? {
      ExecFetched(t, Fetch(t).value, rand);
      ArmTimers(t, Fetch(t).value, rand);
    }
  }

  /** Only Fx15 and Fx18 write a timer. */
  lemma ArmTimers(s: State, ins: Instr, rand: u8)
    requires WellFormed(s)
    ensures var e := ExecInstr(s, ins, rand);
      && (!ins.SetDelay? ==> e.state.delayTimer == s.delayTimer)
      && (!ins.SetSound? ==> e.state.soundTimer == s.soundTimer)
  {
  }

  /** Fx15 and Fx18 load a timer from Vx after the tick, so it counts from Vx in the next cycle. */
  lemma SetTimerEffect(s: State, x: Reg, rand: u8)
    requires WellFormed(s)
    ensures Fetch(Tick(s)) == Some(SetDelay(x)) ==> Cycle(s, rand).state.delayTimer == s.v[x]
    ensures Fetch(Tick(s)) == Some(SetSound(x)) ==> Cycle(s, rand).state.soundTimer == s.v[x]
  {
  }

  /**
   * Running for |a| + |b| cycles is running for |a| cycles and, if the
   * program is still running, |b| more from where it stopped.
   */
  lemma {:induction false} RunSplits(s: State, a: seq<u8>, b: seq<u8>)
    requires WellFormed(s)
    ensures var first := Run(s, a);
      Run(s, a + b) ==
        if first.outcome != Running then first
        else var rest := Run(first.state, b); RunResult(rest.outcome, rest.state, |a| + rest.cycles)
    decreases |a|
  {
    if a == [] {
      assert a + b == b;
    } else {
      assert (a + b)[0] == a[0] && (a + b)[1..] == a[1..] + b;
      var c := Cycle(s, a[0]);
      if c.outcome == Running {
        RunSplits(c.state, a[1..], b);
      }
    }
  }

  /** A program that has stopped after k cycles stays stopped: the later bytes are never used. */
  lemma RunStopsForGood(s: State, rands: seq<u8>, k: nat)
    requires WellFormed(s) && k <= |rands|
    ensures Run(s, rands[..k]).outcome != Running ==> Run(s, rands) == Run(s, rands[..k])
  {
    RunSplits(s, rands[..k], rands[k..]);
    assert rands[..k] + rands[k..] == rands;
  }

  /** A program still running after k cycles runs cycle k + 1 on rands[k]. */
  lemma RunOneMore(s: State, rands: seq<u8>, k: nat)
    requires WellFormed(s) && k < |rands|
    ensures Run(s, rands[..k]).outcome == Running ==>
      var c := Cycle(Run(s, rands[..k]).state, rands[k]);
      Run(s, rands[..k + 1]) == RunResult(c.outcome, c.state, k + 1)
  {
    var a, rand := rands[..k], rands[k];
    assert a + [rand] == rands[..k + 1];
    OneMore(s, a, rand);
  }

  /** `RunOneMore` for the cycles of `a` followed by one more byte. */
  lemma OneMore(s: State, a: seq<u8>, rand: u8)
    requires WellFormed(s)
    ensures Run(s, a).outcome == Running ==>
      var c := Cycle(Run(s, a).state, rand);
      Run(s, a + [rand]) == RunResult(c.outcome, c.state, |a| + 1)
  {
    RunSplits(s, a, [rand]);
    assert [rand][1..] == [];
  }
}
