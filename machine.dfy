// The CHIP-8 machine of emulator/chip8.go as a value: the `Chip8` struct as a
// datatype, and each of its operations as a function from the state before to
// the state after. Go's runtime panics on an out-of-range index are the
// outcome `Panic`; everything else is modelled exactly as the Go code does it,
// including its departures from the usual CHIP-8 behaviour.
module Machine {
  import opened Bytes
  import Sprite

  const MemorySize: nat := 4096
  const ProgramStart: nat := 0x200
  /** Largest program Load accepts: the memory above ProgramStart. */
  const MaxProgramSize: nat := MemorySize - ProgramStart
  const StackSize: nat := 16
  const KeyCount: nat := 16
  const RegisterCount: nat := 16
  /** The flag register VF. */
  const VF: nat := 0xF

  /** The sixteen 5-byte glyphs 0..F, copied to address 0 by Init. */
  const FontSet: seq<Byte> := [
    0xF0, 0x90, 0x90, 0x90, 0xF0, // 0
    0x20, 0x60, 0x20, 0x20, 0x70, // 1
    0xF0, 0x10, 0xF0, 0x80, 0xF0, // 2
    0xF0, 0x10, 0xF0, 0x10, 0xF0, // 3
    0x90, 0x90, 0xF0, 0x10, 0x10, // 4
    0xF0, 0x80, 0xF0, 0x10, 0xF0, // 5
    0xF0, 0x80, 0xF0, 0x90, 0xF0, // 6
    0xF0, 0x10, 0x20, 0x40, 0x40, // 7
    0xF0, 0x90, 0xF0, 0x90, 0xF0, // 8
    0xF0, 0x90, 0xF0, 0x10, 0xF0, // 9
    0xF0, 0x90, 0xF0, 0x90, 0x90, // A
    0xE0, 0x90, 0xE0, 0x90, 0xE0, // B
    0xF0, 0x80, 0x80, 0x80, 0xF0, // C
    0xE0, 0x90, 0x90, 0x90, 0xE0, // D
    0xF0, 0x80, 0xF0, 0x80, 0xF0, // E
    0xF0, 0x80, 0xF0, 0x80, 0x80  // F
  ]

  /** The fields of the Go `Chip8` struct, under their Go names (`vx` is `v`). */
  datatype State = State(
    memory: seq<Byte>,
    display: seq<seq<Pixel>>,
    stack: seq<Word>,
    key: seq<Byte>,
    delayTimer: Byte,
    soundTimer: Byte,
    v: seq<Byte>,
    oc: Word,
    pc: Word,
    iv: Word,
    sp: int,
    doDraw: bool)

  /** The sizes of the Go arrays, and a stack pointer that indexes the stack. */
  predicate Valid(s: State)
  {
    |s.memory| == MemorySize && Sprite.IsGrid(s.display) && |s.stack| == StackSize &&
    |s.key| == KeyCount && |s.v| == RegisterCount && 0 <= s.sp < StackSize
  }

  /** What one step leads to: the next state, or a Go runtime panic (an index out of range). */
  datatype Outcome = Next(after: State) | Panic

  /** The display with every cell clear. */
  function Blank(): (d: seq<seq<Pixel>>)
    ensures Sprite.IsGrid(d)
    ensures forall r, c :: 0 <= r < Sprite.Height && 0 <= c < Sprite.Width ==> d[r][c] == 0
  {
    seq(Sprite.Height, _ => seq(Sprite.Width, _ => 0))
  }

  /** The state `Init` returns: the font at address 0, pc at ProgramStart, all else zero, a redraw pending. */
  function Initial(): (s: State)
    ensures Valid(s)
  {
    State(
      memory := FontSet + seq(MemorySize - |FontSet|, _ => 0),
      display := Blank(),
      stack := seq(StackSize, _ => 0),
      key := seq(KeyCount, _ => 0),
      delayTimer := 0,
      soundTimer := 0,
      v := seq(RegisterCount, _ => 0),
      oc := 0,
      pc := ProgramStart,
      iv := 0,
      sp := 0,
      doDraw := true)
  }

  /** `Draw`: the pending-redraw flag, and the state with the flag cleared. */
  function TakeDraw(s: State): (bool, State)
  {
    (s.doDraw, s.(doDraw := false))
  }

  /** `Key`: key `num` is 1 when down and 0 when up. */
  function SetKey(s: State, num: nat, down: bool): (r: State)
    requires Valid(s) && num < KeyCount
    ensures Valid(r)
    ensures r.key[num] == (if down then 1 else 0)
    ensures forall k :: 0 <= k < KeyCount && k != num ==> r.key[k] == s.key[k]
    ensures r.(key := s.key) == s
  {
    s.(key := s.key[num := if down then 1 else 0])
  }

  /** `Pop`: the return address in the top slot. The stack pointer does not move. */
  function Pop(s: State): Word
    requires Valid(s)
  {
    s.stack[s.sp]
  }

  /** Whether `Push` stays inside the stack: it moves up only from an occupied (non-zero) slot. */
  predicate PushFits(s: State): (b: bool)
    requires Valid(s)
    ensures s.sp + 1 < StackSize ==> b
    ensures !b ==> s.sp == StackSize - 1 && s.stack[s.sp] != 0
  {
    s.stack[s.sp] == 0 || s.sp + 1 < StackSize
  }

  /** `Push`: fill the top slot if it is zero, else move up one slot and fill that. */
  function Push(s: State, inst: Word): (r: State)
    requires Valid(s) && PushFits(s)
    ensures Valid(r)
    ensures Pop(r) == inst
    ensures r.sp == if s.stack[s.sp] == 0 then s.sp else s.sp + 1
    ensures forall k :: 0 <= k < StackSize && k != r.sp ==> r.stack[k] == s.stack[k]
    ensures r.(stack := s.stack, sp := s.sp) == s
  {
    if s.stack[s.sp] == 0 then s.(stack := s.stack[s.sp := inst])
    else s.(sp := s.sp + 1, stack := s.stack[s.sp + 1 := inst])
  }

  /** The 16-bit opcode at pc: the byte at pc is the high byte, the byte at pc+1 the low byte. */
  function Fetch(s: State): (op: Word)
    requires Valid(s) && s.pc + 1 < MemorySize
    ensures op / 0x100 == s.memory[s.pc] && op % 0x100 == s.memory[s.pc + 1]
  {
    s.memory[s.pc] as int * 0x100 + s.memory[s.pc + 1]
  }

  // The opcode fields: Go's `oc & 0xF000`, `(oc & 0x0F00) >> 8`,
  // `(oc & 0x00F0) >> 4`, `oc & 0x000F`, `oc & 0x00FF` and `oc & 0x0FFF`.

  function Family(op: Word): (f: nat)
    ensures f < 0x10
  {
    op / 0x1000
  }

  function X(op: Word): (x: nat)
    ensures x < RegisterCount
  {
    op / 0x100 % 0x10
  }

  function Y(op: Word): (y: nat)
    ensures y < RegisterCount
  {
    op / 0x10 % 0x10
  }

  function N(op: Word): (n: nat)
    ensures n < 0x10
  {
    op % 0x10
  }

  function NN(op: Word): Byte
  {
    op % 0x100
  }

  function NNN(op: Word): (a: Word)
    ensures a < MemorySize
  {
    op % 0x1000
  }

  /** The fields of the fetched opcode, read off its two bytes: the nibbles of memory[pc]
      are the family and x, those of memory[pc+1] are y and n, and nn is memory[pc+1]. */
  lemma FetchFields(s: State)
    requires Valid(s) && s.pc + 1 < MemorySize
    ensures var op := Fetch(s);
      Family(op) == s.memory[s.pc] / 0x10 && X(op) == s.memory[s.pc] % 0x10 &&
      Y(op) == s.memory[s.pc + 1] / 0x10 && N(op) == s.memory[s.pc + 1] % 0x10 &&
      NN(op) == s.memory[s.pc + 1] && NNN(op) == X(op) * 0x100 + NN(op)
  {
  }

  /** Register `i` set to `b`. */
  function SetV(s: State, i: nat, b: Byte): (r: State)
    requires Valid(s) && i < RegisterCount
    ensures Valid(r)
  {
    s.(v := s.v[i := b])
  }

  /** pc moved on by one more instruction when `cond` holds. */
  function SkipIf(s: State, cond: bool): State
  {
    if cond then s.(pc := Add16(s.pc, 2)) else s
  }

  /** 8xyn, in the order the Go code reads and writes the registers. */
  function Arithmetic(s: State, x: nat, y: nat, n: nat): (r: State)
    requires Valid(s) && x < RegisterCount && y < RegisterCount
    ensures Valid(r)
  {
    if n == 0x0 then SetV(s, x, s.v[y])
    else if n == 0x1 then SetV(s, x, Or8(s.v[x], s.v[y]))
    else if n == 0x2 then SetV(s, x, And8(s.v[x], s.v[y]))
    else if n == 0x3 then SetV(s, x, Xor8(s.v[x], s.v[y]))
    else if n == 0x4 then
      // Go tests `vx[x] + vx[y] > 255` on the wrapped uint8 sum, which is never
      // above 255, so only its else branch can run: add, then VF = 1.
      var sum := SetV(s, x, Add8(s.v[x], s.v[y]));
      SetV(sum, VF, 1)
    else if n == 0x5 then
      if s.v[x] > s.v[y] then
        var flagged := SetV(s, VF, 1);
        SetV(flagged, x, Sub8(flagged.v[x], flagged.v[y]))
      else SetV(s, VF, 0)
    else if n == 0x6 then
      var flagged := SetV(s, VF, And8(s.v[x], 1));
      SetV(flagged, x, Shr8(flagged.v[x], 1))
    else if n == 0x7 then
      var flagged :=
        if s.v[y] > s.v[x] then
          var t := SetV(s, VF, 1);
          SetV(t, y, Sub8(t.v[y], t.v[x]))
        else SetV(s, VF, 0);
      SetV(flagged, x, Sub8(flagged.v[y], flagged.v[x]))
    else s
  }

  /** Whether the `k` addresses from iv on are all inside memory. */
  predicate InMemory(iv: Word, k: nat)
    requires k <= 0x1_0000
  {
    forall i :: 0 <= i < k ==> Add16(iv, i) < MemorySize
  }

  /** The k addresses from iv lie in memory exactly when the block is empty or ends by the top
      of memory: a block that crosses 4096 reaches address 4096 before any wrap. */
  lemma InMemoryBounds(iv: Word, k: nat)
    requires k <= 0x1_0000
    ensures InMemory(iv, k) <==> k == 0 || iv + k <= MemorySize
  {
    if k > 0 && iv + k > MemorySize {
      if iv >= MemorySize {
        assert Add16(iv, 0) == iv;
      } else {
        var i := MemorySize - iv;
        assert 0 <= i < k && Add16(iv, i) == MemorySize;
      }
    }
  }

  /** The `n` sprite rows at iv. */
  function SpriteRows(s: State, n: nat): (rows: seq<Byte>)
    requires Valid(s) && n <= 0x1_0000 && InMemory(s.iv, n)
    ensures |rows| == n
  {
    seq(n, i requires 0 <= i < n => s.memory[Add16(s.iv, i)])
  }

  /** Dxyn: XOR-draw an n-row sprite at (Vx, Vy); VF = 1 on a collision, else 0; redraw pending. */
  function DrawSprite(s: State): (r: Outcome)
    requires Valid(s)
    ensures r.Next? ==> Valid(r.after)
  {
    var op := s.oc;
    var n := N(op);
    var x := s.v[X(op)];
    var y := s.v[Y(op)];
    if !InMemory(s.iv, n) then Panic
    else
      var rows := SpriteRows(s, n);
      if !Sprite.OnScreen(rows, x, y) then Panic
      else
        var drawn := Sprite.Draw(s.display, rows, x, y);
        Next(SetV(s, VF, if drawn.collided then 1 else 0).(display := drawn.pixels, doDraw := true))
  }

  /** Ex9E skips when key Vx is down; every other Ex?? skips when it is not (Go's second case always matches). */
  function KeySkip(s: State): (r: Outcome)
    requires Valid(s)
    ensures r.Next? ==> Valid(r.after)
  {
    var op := s.oc;
    var k := s.v[X(op)];
    if k >= KeyCount then Panic
    else if NN(op) == 0x9E then Next(SkipIf(s, s.key[k] == 1))
    else Next(SkipIf(s, s.key[k] != 1))
  }

  /** Fx55 as the Go loop runs it: the first `k` registers stored from iv on. */
  function StoreRegisters(mem: seq<Byte>, v: seq<Byte>, iv: Word, k: nat): (r: seq<Byte>)
    requires |mem| == MemorySize && k <= |v| && k < 0x1_0000
    requires forall i :: 0 <= i < k ==> Add16(iv, i) < MemorySize
    ensures |r| == MemorySize
    decreases k
  {
    if k == 0 then mem
    else StoreRegisters(mem, v, iv, k - 1)[Add16(iv, k - 1) := v[k - 1]]
  }

  /** Fx65 as the Go loop runs it: the first `k` registers loaded from iv on. */
  function LoadRegisters(v: seq<Byte>, mem: seq<Byte>, iv: Word, k: nat): (r: seq<Byte>)
    requires |mem| == MemorySize && k <= |v| && k < 0x1_0000
    requires forall i :: 0 <= i < k ==> Add16(iv, i) < MemorySize
    ensures |r| == |v|
    decreases k
  {
    if k == 0 then v
    else LoadRegisters(v, mem, iv, k - 1)[k - 1 := mem[Add16(iv, k - 1)]]
  }

  /** The Fx?? family, selected by the low byte. */
  function Misc(s: State): (r: Outcome)
    requires Valid(s)
    ensures r.Next? ==> Valid(r.after)
  {
    var op := s.oc;
    var x := X(op);
    var sel := NN(op);
    if sel == 0x07 then Next(SetV(s, x, s.delayTimer))
    else if sel == 0x0A then
      // pc steps back onto this instruction; a down key x moves it on again and sets Vx = x.
      var waiting := s.(pc := Sub16(s.pc, 2));
      if waiting.key[x] == 1 then Next(SetV(waiting.(pc := Add16(waiting.pc, 2)), x, x))
      else Next(waiting)
    else if sel == 0x15 then Next(s.(delayTimer := s.v[x]))
    else if sel == 0x18 then Next(s.(soundTimer := s.v[x]))
    else if sel == 0x1E then
      var flagged := SetV(s, VF, if Add16(s.iv, s.v[x]) > 0xFFF then 1 else 0);
      Next(flagged.(iv := Add16(flagged.iv, flagged.v[x])))
    else if sel == 0x29 then Next(s.(iv := s.v[x] as int * 5))
    else if sel == 0x33 then
      if !InMemory(s.iv, 3) then Panic
      else
        var b := s.v[x];
        var m := s.memory[Add16(s.iv, 0) := b / 100][Add16(s.iv, 1) := b / 10 % 10][Add16(s.iv, 2) := b / 100 % 10];
        Next(s.(memory := m))
    else if sel == 0x55 then
      // Go stores V0..V(x+1): one register more than Fx55 names.
      if x + 2 > RegisterCount || !InMemory(s.iv, x + 2) then Panic
      else Next(s.(memory := StoreRegisters(s.memory, s.v, s.iv, x + 2), iv := x + 1))
    else if sel == 0x65 then
      if !InMemory(s.iv, x + 1) then Panic
      else Next(s.(v := LoadRegisters(s.v, s.memory, s.iv, x + 1), iv := x + 1))
    else Next(s)
  }

  /** Decode and execute `s.oc`, with pc already past it. */
  function Execute(s: State): (r: Outcome)
    requires Valid(s)
    ensures r.Next? ==> Valid(r.after)
  {
    var op := s.oc;
    match Family(op)
    case 0x0 =>
      if op == 0x00E0 then Next(s.(display := Blank(), doDraw := true))
      else if op == 0x00EE then Next(s.(pc := Pop(s)))
      else Next(s)
    case 0x1 => Next(s.(pc := NNN(op)))
    case 0x2 => if PushFits(s) then Next(Push(s, s.pc).(pc := NNN(op))) else Panic
    case 0x3 => Next(SkipIf(s, s.v[X(op)] == NN(op)))
    case 0x4 => Next(SkipIf(s, s.v[X(op)] != NN(op)))
    case 0x5 => Next(SkipIf(s, s.v[X(op)] == s.v[Y(op)]))
    case 0x6 => Next(SetV(s, X(op), NN(op)))
    case 0x7 => Next(SetV(s, X(op), Add8(s.v[X(op)], NN(op))))
    case 0x8 => Next(Arithmetic(s, X(op), Y(op), N(op)))
    case 0x9 => Next(SkipIf(s, s.v[X(op)] != s.v[Y(op)]))
    case 0xA => Next(s.(iv := NNN(op)))
    case 0xD => DrawSprite(s)
    case 0xE => KeySkip(s)
    case 0xF => Misc(s)
    case _ => Next(s)
  }

  /** The state just after the fetch: the opcode in oc and pc moved past it. */
  function Fetched(s: State): (r: State)
    requires Valid(s) && s.pc + 1 < MemorySize
    ensures Valid(r)
  {
    s.(oc := Fetch(s), pc := Add16(s.pc, 2))
  }

  /** The end of every Cycle: the delay timer counts down by one, stopping at zero. */
  function Tick(s: State): State
  {
    s.(delayTimer := if s.delayTimer > 0 then s.delayTimer - 1 else s.delayTimer)
  }

  /** `Cycle`: fetch, decode and execute one instruction, then tick the delay timer. */
  function Cycle(s: State): (r: Outcome)
    requires Valid(s)
    ensures r.Next? ==> Valid(r.after)
  {
    if s.pc + 1 >= MemorySize then Panic
    else
      match Execute(Fetched(s))
      case Next(t) => Next(Tick(t))
      case Panic => Panic
  }

  /** What `Load` reports. */
  datatype LoadResult = Loaded(after: State) | ProgramTooLarge

  /** `Load` of a program's bytes: refused when larger than MaxProgramSize, else copied to ProgramStart. */
  function Load(s: State, program: seq<Byte>): (r: LoadResult)
    requires Valid(s)
    ensures r.Loaded? ==> Valid(r.after)
  {
    if MaxProgramSize < |program| then ProgramTooLarge
    else Loaded(s.(memory := s.memory[..ProgramStart] + program + s.memory[ProgramStart + |program|..]))
  }
}
