// What one Cycle of emulator/chip8.go does, instruction family by family,
// stated on the observable state: the program counter, the registers touched,
// and that nothing else changes. Each lemma holds for every state in which
// the fetched opcode belongs to its family.
module Properties {
  import opened Bytes
  import opened Machine
  import Sprite

  /** The state after a Cycle, apart from the fetch bookkeeping (pc, oc) and the delay timer. */
  function Rest(s: State): State
  {
    s.(pc := 0, oc := 0, delayTimer := 0)
  }

  /** A fetch that does not panic: pc and pc+1 are inside memory. */
  predicate CanFetch(s: State)
  {
    Valid(s) && s.pc + 1 < MemorySize
  }

  /** The delay timer after a Cycle counts down from `d`, stopping at zero. */
  function CountDown(d: Byte): Byte
  {
    if d > 0 then d - 1 else 0
  }

  // ---- Control flow -------------------------------------------------------

  /** 1nnn: pc = nnn, and nothing else changes. */
  lemma JumpSetsPc(s: State)
    requires CanFetch(s) && Family(Fetch(s)) == 0x1
    ensures Cycle(s).Next?
    ensures var r := Cycle(s).after;
      r.pc == NNN(Fetch(s)) && r.oc == Fetch(s) && Rest(r) == Rest(s)
  {
  }

  /** The condition under which 3xnn, 4xnn, 5xy0 and 9xy0 skip the next instruction. */
  predicate SkipCondition(s: State, op: Word)
    requires Valid(s)
  {
    var f, vx, vy := Family(op), s.v[X(op)], s.v[Y(op)];
    (f == 0x3 && vx == NN(op)) || (f == 0x4 && vx != NN(op)) ||
    (f == 0x5 && vx == vy) || (f == 0x9 && vx != vy)
  }

  /** 3xnn, 4xnn, 5xy0, 9xy0: pc moves past the opcode, and past one more exactly when the condition holds. */
  lemma ConditionalSkip(s: State)
    requires CanFetch(s) && Family(Fetch(s)) in {0x3, 0x4, 0x5, 0x9}
    ensures Cycle(s).Next?
    ensures var r := Cycle(s).after;
      r.pc == s.pc + (if SkipCondition(s, Fetch(s)) then 4 else 2) &&
      r.oc == Fetch(s) && Rest(r) == Rest(s)
  {
  }

  /** 2nnn: the address after the call goes on the stack and pc = nnn; a full stack panics. */
  lemma CallPushesReturnAddress(s: State)
    requires CanFetch(s) && Family(Fetch(s)) == 0x2
    ensures Cycle(s).Next? <==> PushFits(s)
    ensures Cycle(s).Next? ==>
      var r := Cycle(s).after;
      r.pc == NNN(Fetch(s)) && Pop(r) == s.pc + 2 &&
      Rest(r) == Rest(Push(s, s.pc + 2))
  {
  }

  /** 00EE: pc = the address in the top slot; the stack and its pointer stay as they are. */
  lemma ReturnKeepsStack(s: State)
    requires CanFetch(s) && Fetch(s) == 0x00EE
    ensures Cycle(s).Next?
    ensures var r := Cycle(s).after;
      r.pc == Pop(s) && r.stack == s.stack && r.sp == s.sp && Rest(r) == Rest(s)
  {
  }

  /** A call (2nnn at a) then a return (00EE at nnn) resumes at a+2, the instruction after the call. */
  lemma CallThenReturn(s: State)
    requires CanFetch(s) && Family(Fetch(s)) == 0x2 && PushFits(s)
    requires var called := Cycle(s).after; CanFetch(called) && Fetch(called) == 0x00EE
    ensures Cycle(s).Next?
    ensures Cycle(Cycle(s).after).Next?
    ensures Cycle(Cycle(s).after).after.pc == s.pc + 2
  {
    CallPushesReturnAddress(s);
    ReturnKeepsStack(Cycle(s).after);
  }

  /** Opcodes the Go switches have no case for (Bnnn, Cxnn, 0nnn other than 00E0 and 00EE,
      8xy8..8xyF, and Fx?? with any other low byte) only move pc past themselves. */
  lemma UnknownOpcodesOnlyAdvance(s: State)
    requires CanFetch(s)
    requires var op := Fetch(s);
      Family(op) == 0xB || Family(op) == 0xC ||
      (Family(op) == 0x0 && op != 0x00E0 && op != 0x00EE) ||
      (Family(op) == 0x8 && N(op) >= 0x8) ||
      (Family(op) == 0xF && NN(op) !in {0x07, 0x0A, 0x15, 0x18, 0x1E, 0x29, 0x33, 0x55, 0x65})
    ensures Cycle(s).Next?
    ensures var r := Cycle(s).after;
      r.pc == s.pc + 2 && r.oc == Fetch(s) && Rest(r) == Rest(s)
  {
  }

  /** The outcome of `Push` for each of `addrs` in turn; a push that does not fit panics. */
  function Pushes(s: State, addrs: seq<Word>): (r: Outcome)
    requires Valid(s)
    ensures r.Next? ==> Valid(r.after)
    decreases |addrs|
  {
    if addrs == [] then Next(s)
    else if !PushFits(s) then Panic
    else Pushes(Push(s, addrs[0]), addrs[1..])
  }

  /** On an empty stack, up to 16 non-zero return addresses fit, each in the next slot; then a 17th does not. */
  lemma {:induction false} NestedCallsFill(s: State, addrs: seq<Word>)
    requires Valid(s) && s.sp == 0 && forall k :: 0 <= k < StackSize ==> s.stack[k] == 0
    requires |addrs| <= StackSize && forall k :: 0 <= k < |addrs| ==> addrs[k] != 0
    ensures Pushes(s, addrs).Next?
    ensures var r := Pushes(s, addrs).after;
      r.stack[..|addrs|] == addrs &&
      (forall k :: |addrs| <= k < StackSize ==> r.stack[k] == 0) &&
      r.sp == (if addrs == [] then 0 else |addrs| - 1) &&
      (PushFits(r) <==> |addrs| < StackSize)
    decreases |addrs|
  {
    if addrs != [] {
      var front := addrs[..|addrs| - 1];
      var last := addrs[|addrs| - 1];
      assert addrs == front + [last];
      NestedCallsFill(s, front);
      PushesSnoc(s, front, last);
      var mid := Pushes(s, front).after;
      assert mid.stack[..|front|] == front;
      if front != [] {
        assert mid.stack[mid.sp] == front[|front| - 1];
      }
      var r := Push(mid, last);
      assert r.stack[..|addrs|] == mid.stack[..|front|] + [last];
    }
  }

  /** Pushing one more address is pushing the others, then it. */
  lemma {:induction false} PushesSnoc(s: State, addrs: seq<Word>, a: Word)
    requires Valid(s) && Pushes(s, addrs).Next?
    ensures Pushes(s, addrs + [a]) ==
      if PushFits(Pushes(s, addrs).after) then Next(Push(Pushes(s, addrs).after, a)) else Panic
    decreases |addrs|
  {
    if addrs != [] {
      assert (addrs + [a])[1..] == addrs[1..] + [a];
      PushesSnoc(Push(s, addrs[0]), addrs[1..], a);
    }
  }

  // ---- Registers ----------------------------------------------------------

  /** 6xnn: Vx = nn, no other register changes. */
  lemma LoadImmediate(s: State)
    requires CanFetch(s) && Family(Fetch(s)) == 0x6
    ensures Cycle(s).Next?
    ensures var op, r := Fetch(s), Cycle(s).after;
      r.v == s.v[X(op) := NN(op)] && r.pc == s.pc + 2 && Rest(r.(v := s.v)) == Rest(s)
  {
  }

  /** 7xnn: Vx = (Vx + nn) mod 256, no flag, no other register changes. */
  lemma AddImmediateWraps(s: State)
    requires CanFetch(s) && Family(Fetch(s)) == 0x7
    ensures Cycle(s).Next?
    ensures var op, r := Fetch(s), Cycle(s).after;
      r.v[X(op)] == (s.v[X(op)] as int + NN(op)) % 0x100 &&
      (forall i :: 0 <= i < RegisterCount && i != X(op) ==> r.v[i] == s.v[i]) &&
      r.pc == s.pc + 2 && Rest(r.(v := s.v)) == Rest(s)
  {
  }

  /** 8xy4: Vx = (Vx + Vy) mod 256 and VF = 1 whatever the sum: the `> 255` test never holds. */
  lemma AddRegistersAlwaysSetsFlag(s: State)
    requires CanFetch(s) && Family(Fetch(s)) == 0x8 && N(Fetch(s)) == 0x4
    ensures Cycle(s).Next?
    ensures var op, r := Fetch(s), Cycle(s).after;
      r.v[VF] == 1 &&
      (X(op) != VF ==> r.v[X(op)] == (s.v[X(op)] as int + s.v[Y(op)]) % 0x100) &&
      (forall i :: 0 <= i < RegisterCount && i != X(op) && i != VF ==> r.v[i] == s.v[i]) &&
      r.pc == s.pc + 2 && Rest(r.(v := s.v)) == Rest(s)
  {
  }

  /** 8xy0..8xy3: Vx = Vy, or Vx OR / AND / XOR Vy bit by bit; no flag and no other register changes. */
  lemma CopyAndLogic(s: State)
    requires CanFetch(s) && Family(Fetch(s)) == 0x8 && N(Fetch(s)) <= 0x3
    ensures Cycle(s).Next?
    ensures var op, r := Fetch(s), Cycle(s).after;
      var x, y, n := X(op), Y(op), N(op);
      (n == 0x0 ==> r.v[x] == s.v[y]) &&
      (forall j :: 0 <= j < 8 ==>
        (n == 0x1 ==> (BitSet(r.v[x], j) <==> BitSet(s.v[x], j) || BitSet(s.v[y], j))) &&
        (n == 0x2 ==> (BitSet(r.v[x], j) <==> BitSet(s.v[x], j) && BitSet(s.v[y], j))) &&
        (n == 0x3 ==> (BitSet(r.v[x], j) <==> BitSet(s.v[x], j) != BitSet(s.v[y], j)))) &&
      (forall i :: 0 <= i < RegisterCount && i != x ==> r.v[i] == s.v[i]) &&
      r.pc == s.pc + 2 && Rest(r.(v := s.v)) == Rest(s)
  {
    var op := Fetch(s);
    var x, y := X(op), Y(op);
    var t := Fetched(s);
    assert Execute(t) == Next(Arithmetic(t, x, y, N(op)));
    forall j | 0 <= j < 8
      ensures BitSet(Or8(s.v[x], s.v[y]), j) <==> BitSet(s.v[x], j) || BitSet(s.v[y], j)
      ensures BitSet(And8(s.v[x], s.v[y]), j) <==> BitSet(s.v[x], j) && BitSet(s.v[y], j)
      ensures BitSet(Xor8(s.v[x], s.v[y]), j) <==> BitSet(s.v[x], j) != BitSet(s.v[y], j)
    {
      OrBits(s.v[x], s.v[y], j);
      AndBits(s.v[x], s.v[y], j);
      XorBits(s.v[x], s.v[y], j);
    }
  }

  /** 8xy5: only when Vx > Vy strictly is VF = 1 and Vx = Vx - Vy; otherwise VF = 0 and Vx keeps its value.
      VF is written first, so when y is F the subtrahend is the new flag 1, and when x is F the
      difference overwrites the flag. */
  lemma SubtractOnlyWithoutBorrow(s: State)
    requires CanFetch(s) && Family(Fetch(s)) == 0x8 && N(Fetch(s)) == 0x5
    ensures Cycle(s).Next?
    ensures var op, r := Fetch(s), Cycle(s).after;
      var x, y := X(op), Y(op);
      (x != VF && y != VF ==>
        (s.v[x] > s.v[y] ==> r.v[VF] == 1 && r.v[x] == s.v[x] - s.v[y]) &&
        (s.v[x] <= s.v[y] ==> r.v[VF] == 0 && r.v[x] == s.v[x])) &&
      (x != VF && y == VF ==>
        (s.v[x] > s.v[VF] ==> r.v[VF] == 1 && r.v[x] == s.v[x] - 1) &&
        (s.v[x] <= s.v[VF] ==> r.v[VF] == 0 && r.v[x] == s.v[x])) &&
      (x == VF ==> r.v[VF] == if s.v[VF] > s.v[y] then (1 - s.v[y] as int) % 0x100 else 0) &&
      (forall i :: 0 <= i < RegisterCount && i != x && i != VF ==> r.v[i] == s.v[i]) &&
      r.pc == s.pc + 2 && Rest(r.(v := s.v)) == Rest(s)
  {
  }

  /** 8xy6: VF = the lowest bit of Vx (bit 7, counting from the most significant), then Vx shifts right
      by one: each bit moves one place down and the top bit clears. With x = F the shift overwrites the
      flag with 0. */
  lemma ShiftRightIntoFlag(s: State)
    requires CanFetch(s) && Family(Fetch(s)) == 0x8 && N(Fetch(s)) == 0x6
    ensures Cycle(s).Next?
    ensures var op, r := Fetch(s), Cycle(s).after;
      var x := X(op);
      (x != VF ==> r.v[VF] == (if BitSet(s.v[x], 7) then 1 else 0) &&
                   forall j :: 0 <= j < 8 ==> (BitSet(r.v[x], j) <==> j > 0 && BitSet(s.v[x], j - 1))) &&
      (x == VF ==> r.v[VF] == 0) &&
      (forall i :: 0 <= i < RegisterCount && i != x && i != VF ==> r.v[i] == s.v[i]) &&
      r.pc == s.pc + 2 && Rest(r.(v := s.v)) == Rest(s)
  {
    var op := Fetch(s);
    var x := X(op);
    var t := Fetched(s);
    assert Execute(t) == Next(Arithmetic(t, x, Y(op), 0x6));
    AndOneIsLowBit(s.v[x]);
    forall j | 0 <= j < 8
      ensures BitSet(Shr8(s.v[x], 1), j) <==> j > 0 && BitSet(s.v[x], j - 1)
    {
      ShiftRightBits(s.v[x], j);
    }
    if x == VF {
      assert Shr8(0, 1) == 0 && Shr8(1, 1) == 0;
    }
  }

  /** 8xy7: when Vy > Vx, Vy = Vy - Vx and VF = 1, else VF = 0; then Vx = (Vy - Vx) mod 256 with that Vy.
      With x = y nothing is greater, so both VF and Vx end at 0; with x or y the flag register,
      the later writes see the flag already written. */
  lemma ReverseSubtractWritesVy(s: State)
    requires CanFetch(s) && Family(Fetch(s)) == 0x8 && N(Fetch(s)) == 0x7
    ensures Cycle(s).Next?
    ensures var op, r := Fetch(s), Cycle(s).after;
      var x, y := X(op), Y(op);
      var vy := if s.v[y] > s.v[x] then s.v[y] - s.v[x] else s.v[y];
      (x != VF && y != VF && x != y ==>
        r.v[y] == vy && r.v[x] == (vy as int - s.v[x]) % 0x100 &&
        r.v[VF] == (if s.v[y] > s.v[x] then 1 else 0)) &&
      (x == y ==> r.v[x] == 0 && r.v[VF] == 0) &&
      (x == VF && y != VF ==>
        r.v[y] == (if s.v[y] > s.v[VF] then s.v[y] - 1 else s.v[y]) &&
        r.v[VF] == (if s.v[y] > s.v[VF] then (s.v[y] as int - 2) % 0x100 else s.v[y])) &&
      (y == VF && x != VF ==>
        r.v[VF] == (if s.v[VF] > s.v[x] then (1 - s.v[x] as int) % 0x100 else 0) &&
        r.v[x] == (if s.v[VF] > s.v[x] then (1 - 2 * s.v[x] as int) % 0x100 else (0 - s.v[x] as int) % 0x100)) &&
      (forall i :: 0 <= i < RegisterCount && i != x && i != y && i != VF ==> r.v[i] == s.v[i]) &&
      r.pc == s.pc + 2 && Rest(r.(v := s.v)) == Rest(s)
  {
  }

  /** Annn: I = nnn. */
  lemma SetIndex(s: State)
    requires CanFetch(s) && Family(Fetch(s)) == 0xA
    ensures Cycle(s).Next?
    ensures var r := Cycle(s).after;
      r.iv == NNN(Fetch(s)) && r.pc == s.pc + 2 && Rest(r.(iv := s.iv)) == Rest(s)
  {
  }

  // ---- Display -------------------------------------------------------------

  /** 00E0: every cell clear and a redraw pending; nothing else changes. */
  lemma ClearScreen(s: State)
    requires CanFetch(s) && Fetch(s) == 0x00E0
    ensures Cycle(s).Next?
    ensures var r := Cycle(s).after;
      (forall row, col :: 0 <= row < Sprite.Height && 0 <= col < Sprite.Width ==> r.display[row][col] == 0) &&
      r.doDraw && r.pc == s.pc + 2 && Rest(r.(display := s.display, doDraw := s.doDraw)) == Rest(s)
  {
  }

  /** Whether Dxyn draws without a panic: the sprite rows lie in memory and its set bits on screen. */
  predicate DrawFits(s: State, op: Word)
    requires Valid(s)
  {
    InMemory(s.iv, N(op)) && Sprite.OnScreen(SpriteRows(s, N(op)), s.v[X(op)], s.v[Y(op)])
  }

  /** Whether a cell that the sprite covers is lit on display `d`. */
  predicate LitUnderSprite(d: seq<seq<Pixel>>, rows: seq<Byte>, x: Byte, y: Byte)
    requires Sprite.IsGrid(d)
  {
    exists row: Byte, col: Byte :: row < Sprite.Height && col < Sprite.Width &&
      Sprite.Covers(rows, x, y, row, col) && d[row][col] == 1
  }

  /** Dxyn: panics unless the sprite fits; otherwise toggles exactly the cells under set sprite bits,
      sets VF = 1 exactly when one of them was lit and 0 otherwise, and marks a redraw. */
  lemma DrawSpriteEffect(s: State)
    requires CanFetch(s) && Family(Fetch(s)) == 0xD
    ensures Cycle(s).Next? <==> DrawFits(s, Fetch(s))
    ensures Cycle(s).Next? ==> N(Fetch(s)) == 0 || s.iv + N(Fetch(s)) <= MemorySize
    ensures Cycle(s).Next? ==>
      var op, r := Fetch(s), Cycle(s).after;
      var rows, x, y := SpriteRows(s, N(op)), s.v[X(op)], s.v[Y(op)];
      (forall row, col :: 0 <= row < Sprite.Height && 0 <= col < Sprite.Width ==>
        r.display[row][col] ==
          if Sprite.Covers(rows, x, y, row, col) then 1 - s.display[row][col] else s.display[row][col]) &&
      r.v[VF] == (if LitUnderSprite(s.display, rows, x, y) then 1 else 0) &&
      r.v == s.v[VF := r.v[VF]] && r.doDraw && r.pc == s.pc + 2 &&
      Rest(r.(display := s.display, v := s.v, doDraw := s.doDraw)) == Rest(s)
  {
    var op := Fetch(s);
    var t := Fetched(s);
    InMemoryBounds(s.iv, N(op));
    if DrawFits(s, op) {
      var rows, x, y := SpriteRows(s, N(op)), s.v[X(op)], s.v[Y(op)];
      assert SpriteRows(t, N(op)) == rows;
      Sprite.DrawPixels(s.display, rows, x, y);
      Sprite.DrawCollision(s.display, rows, x, y);
    }
  }

  /** Dxyn does not panic when its rows end by the top of memory and its 8-pixel-wide box lies on screen. */
  lemma DrawSpriteInBounds(s: State)
    requires CanFetch(s) && Family(Fetch(s)) == 0xD
    requires var op := Fetch(s);
      s.iv + N(op) <= MemorySize && s.v[X(op)] + 8 <= Sprite.Width && s.v[Y(op)] + N(op) <= Sprite.Height
    ensures Cycle(s).Next?
  {
    var op := Fetch(s);
    InMemoryBounds(s.iv, N(op));
    Sprite.SpriteInsideScreen(SpriteRows(s, N(op)), s.v[X(op)], s.v[Y(op)]);
    DrawSpriteEffect(s);
  }

  /** The same Dxyn executed twice in a row, with Vx, Vy not VF and I unchanged, restores the display. */
  lemma DrawTwiceRestoresDisplay(s: State)
    requires CanFetch(s) && Family(Fetch(s)) == 0xD && X(Fetch(s)) != VF && Y(Fetch(s)) != VF
    requires DrawFits(s, Fetch(s))
    requires var t := Cycle(s).after; CanFetch(t) && Fetch(t) == Fetch(s)
    ensures Cycle(s).Next?
    ensures Cycle(Cycle(s).after).Next?
    ensures Cycle(Cycle(s).after).after.display == s.display
  {
    var op := Fetch(s);
    DrawSpriteEffect(s);
    var t := Cycle(s).after;
    var rows, x, y := SpriteRows(s, N(op)), s.v[X(op)], s.v[Y(op)];
    assert SpriteRows(t, N(op)) == rows;
    DrawSpriteEffect(t);
    Sprite.DrawTwiceRestores(s.display, rows, x, y);
    Sprite.DrawPixels(s.display, rows, x, y);
    Sprite.DrawPixels(t.display, rows, x, y);
    var u := Cycle(t).after;
    forall row | 0 <= row < Sprite.Height
      ensures u.display[row] == s.display[row]
    {
      assert |u.display[row]| == |s.display[row]|;
    }
  }

  // ---- Keys and timers ---------------------------------------------------------

  /** Ex9E skips when key Vx is down (1); every other Ex?? skips when it is not: the ExA1 test. */
  lemma KeySkip(s: State)
    requires CanFetch(s) && Family(Fetch(s)) == 0xE
    ensures Cycle(s).Next? <==> s.v[X(Fetch(s))] < KeyCount
    ensures Cycle(s).Next? ==>
      var op, r := Fetch(s), Cycle(s).after;
      var down := s.key[s.v[X(op)]] == 1;
      var skip := if NN(op) == 0x9E then down else !down;
      r.pc == s.pc + (if skip then 4 else 2) && Rest(r) == Rest(s)
  {
  }

  /** Fx0A waits on key x itself: while it is up pc stays on the opcode; once down, pc moves on and Vx = x. */
  lemma WaitForKeyX(s: State)
    requires CanFetch(s) && Family(Fetch(s)) == 0xF && NN(Fetch(s)) == 0x0A
    ensures Cycle(s).Next?
    ensures var op, r := Fetch(s), Cycle(s).after;
      var x := X(op);
      (s.key[x] == 1 ==> r.pc == s.pc + 2 && r.v == s.v[x := x]) &&
      (s.key[x] != 1 ==> r.pc == s.pc && r.v == s.v) &&
      Rest(r.(v := s.v)) == Rest(s)
  {
  }

  /** Every Cycle that does not panic leaves the fetched opcode in oc: memory[pc] is its high byte,
      memory[pc+1] its low byte. */
  lemma CycleRecordsOpcode(s: State)
    requires CanFetch(s) && Cycle(s).Next?
    ensures var op := Cycle(s).after.oc;
      op == Fetch(s) && op / 0x100 == s.memory[s.pc] && op % 0x100 == s.memory[s.pc + 1]
  {
    var t := Fetched(s);
    if Family(t.oc) == 0x8 {
      assert Execute(t).after.oc == t.oc;
    }
  }

  /** Whether `op` is Fx15 (delay timer = Vx). */
  predicate SetsDelay(op: Word)
  {
    Family(op) == 0xF && NN(op) == 0x15
  }

  /** Whether `op` is Fx18 (sound timer = Vx). */
  predicate SetsSound(op: Word)
  {
    Family(op) == 0xF && NN(op) == 0x18
  }

  /** Every Cycle ends by counting the delay timer down by one, never below zero (after Fx15 has
      copied Vx into it); the sound timer changes only by Fx18, which copies Vx into it. */
  lemma CycleTimers(s: State)
    requires CanFetch(s) && Cycle(s).Next?
    ensures var op, r := Fetch(s), Cycle(s).after;
      r.delayTimer == CountDown(if SetsDelay(op) then s.v[X(op)] else s.delayTimer) &&
      r.soundTimer == (if SetsSound(op) then s.v[X(op)] else s.soundTimer)
  {
    var op := Fetch(s);
    var t := Fetched(s);
    if Family(op) == 0x8 {
      assert Execute(t).after.delayTimer == s.delayTimer;
    }
  }

  /** A Cycle never changes the keypad: only `Key` does. */
  lemma CycleKeepsKeys(s: State)
    requires CanFetch(s) && Cycle(s).Next?
    ensures Cycle(s).after.key == s.key
  {
    var op := Fetch(s);
    var t := Fetched(s);
    if Family(op) == 0x8 {
      assert Execute(t).after.key == s.key;
    }
  }

  // ---- Index register and memory ------------------------------------------------

  /** Fx1E: VF = 1 exactly when the wrapped 16-bit sum I + Vx exceeds 0xFFF; I then takes I + Vx, unmasked.
      The flag is written first, so with x = F it is the new flag that is added to I. */
  lemma AddToIndex(s: State)
    requires CanFetch(s) && Family(Fetch(s)) == 0xF && NN(Fetch(s)) == 0x1E
    ensures Cycle(s).Next?
    ensures var op, r := Fetch(s), Cycle(s).after;
      var sum := (s.iv + s.v[X(op)]) % 0x1_0000;
      var flag := if sum > 0xFFF then 1 else 0;
      r.v == s.v[VF := flag] &&
      (X(op) != VF ==> r.iv == sum) &&
      (X(op) == VF ==> r.iv == (s.iv + flag) % 0x1_0000) &&
      r.pc == s.pc + 2 && Rest(r.(iv := s.iv, v := s.v)) == Rest(s)
  {
  }

  /** Fx07, Fx15, Fx18: Vx = the delay timer, the delay timer = Vx, the sound timer = Vx;
      then the delay timer counts down as at the end of every Cycle; nothing else changes. */
  lemma TimerTransfers(s: State)
    requires CanFetch(s) && Family(Fetch(s)) == 0xF && NN(Fetch(s)) in {0x07, 0x15, 0x18}
    ensures Cycle(s).Next?
    ensures var op, r := Fetch(s), Cycle(s).after;
      var x := X(op);
      (NN(op) == 0x07 ==> r.v == s.v[x := s.delayTimer] && r.delayTimer == CountDown(s.delayTimer) &&
                          r.soundTimer == s.soundTimer) &&
      (NN(op) == 0x15 ==> r.v == s.v && r.delayTimer == CountDown(s.v[x]) && r.soundTimer == s.soundTimer) &&
      (NN(op) == 0x18 ==> r.v == s.v && r.delayTimer == CountDown(s.delayTimer) && r.soundTimer == s.v[x]) &&
      r.pc == s.pc + 2 && Rest(r.(v := s.v, soundTimer := s.soundTimer)) == Rest(s)
  {
  }

  /** Fx29: I = 5 Vx, the address of the glyph for digit Vx when Vx < 16. */
  lemma FontAddress(s: State)
    requires CanFetch(s) && Family(Fetch(s)) == 0xF && NN(Fetch(s)) == 0x29
    ensures Cycle(s).Next?
    ensures var op, r := Fetch(s), Cycle(s).after;
      r.iv == 5 * s.v[X(op)] as int && (s.v[X(op)] < 16 ==> r.iv + 5 <= |FontSet|) &&
      r.pc == s.pc + 2 && Rest(r.(iv := s.iv)) == Rest(s)
  {
  }

  /** Fx33: memory[I] and memory[I+1] get the hundreds and tens digits of Vx; the third byte
      repeats the hundreds digit instead of the ones digit. */
  lemma DecimalDigits(s: State)
    requires CanFetch(s) && Family(Fetch(s)) == 0xF && NN(Fetch(s)) == 0x33
    ensures Cycle(s).Next? <==> InMemory(s.iv, 3)
    ensures Cycle(s).Next? <==> s.iv + 3 <= MemorySize
    ensures Cycle(s).Next? ==>
      var op, r := Fetch(s), Cycle(s).after;
      var b := s.v[X(op)];
      r.memory[Add16(s.iv, 0)] == b / 100 && r.memory[Add16(s.iv, 1)] == b / 10 % 10 &&
      r.memory[Add16(s.iv, 2)] == b / 100 &&
      (forall a :: 0 <= a < MemorySize && a !in {Add16(s.iv, 0), Add16(s.iv, 1), Add16(s.iv, 2)} ==>
        r.memory[a] == s.memory[a]) &&
      r.pc == s.pc + 2 && Rest(r.(memory := s.memory)) == Rest(s)
  {
    InMemoryBounds(s.iv, 3);
  }

  /** StoreRegisters puts register i at I+i for each i < k, and leaves every other address alone. */
  lemma {:induction false} StoreRegistersEffect(mem: seq<Byte>, v: seq<Byte>, iv: Word, k: nat, a: nat)
    requires |mem| == MemorySize && k <= |v| && k < 0x1_0000 && InMemory(iv, k) && a < MemorySize
    ensures StoreRegisters(mem, v, iv, k)[a] ==
      if Sub16(a, iv) < k then v[Sub16(a, iv)] else mem[a]
    decreases k
  {
    if k > 0 {
      StoreRegistersEffect(mem, v, iv, k - 1, a);
    }
  }

  /** LoadRegisters sets register i to memory[I+i] for each i < k, and leaves the others alone. */
  lemma {:induction false} LoadRegistersEffect(v: seq<Byte>, mem: seq<Byte>, iv: Word, k: nat, i: nat)
    requires |mem| == MemorySize && k <= |v| && k < 0x1_0000 && InMemory(iv, k) && i < |v|
    ensures LoadRegisters(v, mem, iv, k)[i] == if i < k then mem[Add16(iv, i)] else v[i]
    decreases k
  {
    if k > 0 {
      LoadRegistersEffect(v, mem, iv, k - 1, i);
    }
  }

  /** Fx55 stores V0..V(x+1), one register more than it names (x = 15 panics on V16), then I = x + 1. */
  lemma StoreRegistersOneExtra(s: State)
    requires CanFetch(s) && Family(Fetch(s)) == 0xF && NN(Fetch(s)) == 0x55
    ensures Cycle(s).Next? <==> X(Fetch(s)) < 15 && InMemory(s.iv, X(Fetch(s)) + 2)
    ensures Cycle(s).Next? <==> X(Fetch(s)) < 15 && s.iv + X(Fetch(s)) + 2 <= MemorySize
    ensures Cycle(s).Next? ==>
      var op, r := Fetch(s), Cycle(s).after;
      var count := X(op) + 2;
      (forall i :: 0 <= i < count ==> r.memory[Add16(s.iv, i)] == s.v[i]) &&
      (forall a :: 0 <= a < MemorySize && Sub16(a, s.iv) >= count ==> r.memory[a] == s.memory[a]) &&
      r.iv == X(op) + 1 && r.pc == s.pc + 2 && Rest(r.(memory := s.memory, iv := s.iv)) == Rest(s)
  {
    var op := Fetch(s);
    InMemoryBounds(s.iv, X(op) + 2);
    assert Execute(Fetched(s)) == Misc(Fetched(s));
    if Cycle(s).Next? {
      var r := Cycle(s).after;
      var count := X(op) + 2;
      assert r.memory == StoreRegisters(s.memory, s.v, s.iv, count);
      forall a | 0 <= a < MemorySize
        ensures r.memory[a] == if Sub16(a, s.iv) < count then s.v[Sub16(a, s.iv)] else s.memory[a]
      {
        StoreRegistersEffect(s.memory, s.v, s.iv, count, a);
      }
      forall i | 0 <= i < count
        ensures r.memory[Add16(s.iv, i)] == s.v[i]
      {
        assert Sub16(Add16(s.iv, i), s.iv) == i;
      }
    }
  }

  /** Fx65 loads V0..Vx from memory at I on, leaves the other registers, then I = x + 1. */
  lemma LoadRegistersFromMemory(s: State)
    requires CanFetch(s) && Family(Fetch(s)) == 0xF && NN(Fetch(s)) == 0x65
    ensures Cycle(s).Next? <==> InMemory(s.iv, X(Fetch(s)) + 1)
    ensures Cycle(s).Next? <==> s.iv + X(Fetch(s)) + 1 <= MemorySize
    ensures Cycle(s).Next? ==>
      var op, r := Fetch(s), Cycle(s).after;
      (forall i :: 0 <= i < RegisterCount ==>
        r.v[i] == if i <= X(op) then s.memory[Add16(s.iv, i)] else s.v[i]) &&
      r.iv == X(op) + 1 && r.pc == s.pc + 2 && Rest(r.(v := s.v, iv := s.iv)) == Rest(s)
  {
    var op := Fetch(s);
    InMemoryBounds(s.iv, X(op) + 1);
    if Cycle(s).Next? {
      forall i | 0 <= i < RegisterCount
        ensures Cycle(s).after.v[i] == if i <= X(op) then s.memory[Add16(s.iv, i)] else s.v[i]
      {
        LoadRegistersEffect(s.v, s.memory, s.iv, X(op) + 1, i);
      }
    }
  }

  // ---- Start-up, loading, redraw flag ----------------------------------------------

  /** Init: the font at 0x000..0x04F, every other byte zero, pc = 0x200, sp = 0, a redraw pending,
      and all registers, stack slots, keys, timers and cells zero. */
  lemma InitialState()
    ensures var s := Initial();
      (forall a :: 0 <= a < MemorySize ==> s.memory[a] == if a < |FontSet| then FontSet[a] else 0) &&
      |FontSet| == 80 && s.pc == 0x200 && s.sp == 0 && s.doDraw && s.iv == 0 && s.oc == 0 &&
      s.delayTimer == 0 && s.soundTimer == 0 &&
      (forall i :: 0 <= i < RegisterCount ==> s.v[i] == 0) &&
      (forall k :: 0 <= k < StackSize ==> s.stack[k] == 0) &&
      (forall k :: 0 <= k < KeyCount ==> s.key[k] == 0) &&
      (forall r, c :: 0 <= r < Sprite.Height && 0 <= c < Sprite.Width ==> s.display[r][c] == 0)
  {
  }

  /** Draw returns the pending-redraw flag and clears it, so a second Draw returns false. */
  lemma DrawConsumesFlag(s: State)
    ensures TakeDraw(s).0 == s.doDraw && !TakeDraw(s).1.doDraw
    ensures TakeDraw(s).1.(doDraw := s.doDraw) == s
    ensures !TakeDraw(TakeDraw(s).1).0
  {
  }

  /** Load refuses a program longer than 4096 - 512 = 3584 bytes; a shorter one lands at 0x200 on,
      byte for byte, and nothing else changes. */
  lemma LoadPlacesProgram(s: State, program: seq<Byte>)
    requires Valid(s)
    ensures Load(s, program).ProgramTooLarge? <==> |program| > 3584
    ensures Load(s, program).Loaded? ==>
      var r := Load(s, program).after;
      (forall i :: 0 <= i < |program| ==> r.memory[ProgramStart + i] == program[i]) &&
      (forall a :: 0 <= a < MemorySize && !(ProgramStart <= a < ProgramStart + |program|) ==>
        r.memory[a] == s.memory[a]) &&
      r.(memory := s.memory) == s
  {
  }

  /** Loading a program into the start state leaves the font intact below the program start. */
  lemma LoadKeepsFont(program: seq<Byte>)
    ensures Load(Initial(), program).Loaded? ==> Load(Initial(), program).after.memory[..|FontSet|] == FontSet
  {
  }
}
