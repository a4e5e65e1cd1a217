// The Go `Chip8` struct and its pointer-receiver methods, in place: the
// fixed-size Go arrays are Dafny arrays, the scalar fields are mutable fields,
// and every method is proved to leave the machine in the state that the
// corresponding function of module Machine gives. A method whose Go code
// would panic requires the Machine function not to panic.
module Emulator {
  import opened Bytes
  import Sprite
  import Machine

  class Chip8 {
    const memory: array<Byte>
    const display: array2<Pixel>
    const stack: array<Word>
    const key: array<Byte>
    var delayTimer: Byte
    var soundTimer: Byte
    const vx: array<Byte>
    var oc: Word
    var pc: Word
    var iv: Word
    var sp: int
    var doDraw: bool

    /** The Go array sizes; the three byte arrays are distinct; sp indexes the stack. */
    ghost predicate Valid()
      reads this
    {
      memory.Length == Machine.MemorySize &&
      display.Length0 == Sprite.Height && display.Length1 == Sprite.Width &&
      stack.Length == Machine.StackSize && key.Length == Machine.KeyCount &&
      vx.Length == Machine.RegisterCount &&
      memory != key && memory != vx && key != vx &&
      0 <= sp < Machine.StackSize
    }

    /** `Buffer`: the display, row by row. */
    function Buffer(): (b: seq<seq<Pixel>>)
      reads display
      requires display.Length0 == Sprite.Height && display.Length1 == Sprite.Width
      ensures Sprite.IsGrid(b)
      ensures forall r, c :: 0 <= r < Sprite.Height && 0 <= c < Sprite.Width ==> b[r][c] == display[r, c]
    {
      seq(Sprite.Height, r requires 0 <= r < Sprite.Height reads display =>
        seq(Sprite.Width, c requires 0 <= c < Sprite.Width reads display => display[r, c]))
    }

    /** The whole machine as a value. */
    ghost function State(): (s: Machine.State)
      reads this, memory, display, stack, key, vx
      requires Valid()
      ensures Machine.Valid(s)
    {
      Machine.State(memory[..], Buffer(), stack[..], key[..], delayTimer, soundTimer,
                    vx[..], oc, pc, iv, sp, doDraw)
    }

    /** `Init`: the font copied to address 0, pc = 0x200, everything else at Go's zero value. */
    constructor Init()
      ensures Valid() && State() == Machine.Initial()
      ensures fresh(memory) && fresh(display) && fresh(stack) && fresh(key) && fresh(vx)
    {
      memory := new Byte[Machine.MemorySize](_ => 0);
      display := new Pixel[Sprite.Height, Sprite.Width]((_, _) => 0);
      stack := new Word[Machine.StackSize](_ => 0);
      key := new Byte[Machine.KeyCount](_ => 0);
      vx := new Byte[Machine.RegisterCount](_ => 0);
      delayTimer, soundTimer := 0, 0;
      oc, pc, iv, sp := 0, 0x200, 0, 0;
      doDraw := true;
      new;
      LoadFont();
      var k := 0;
      while k < stack.Length
        modifies stack
        invariant 0 <= k <= stack.Length
        invariant stack[..] == seq(Machine.StackSize, _ => 0)
      {
        stack[k] := 0;
        k := k + 1;
      }
      assert memory[..] == Machine.Initial().memory;
      assert stack[..] == Machine.Initial().stack;
      assert key[..] == Machine.Initial().key;
      assert vx[..] == Machine.Initial().v;
      forall r | 0 <= r < Sprite.Height
        ensures Buffer()[r] == Machine.Blank()[r]
      {
      }
      assert Buffer() == Machine.Blank();
    }

    /** The font loop of `Init`: `FontSet` copied byte by byte to address 0 of a zeroed memory. */
    method LoadFont()
      requires Valid() && forall a :: 0 <= a < memory.Length ==> memory[a] == 0
      modifies memory
      ensures Valid() && memory[..] == Machine.Initial().memory
    {
      var font := Machine.FontSet;
      var i := 0;
      while i < |font|
        invariant 0 <= i <= |font|
        invariant forall a :: 0 <= a < i ==> memory[a] == font[a]
        invariant forall a :: i <= a < Machine.MemorySize ==> memory[a] == 0
      {
        memory[i] := font[i];
        i := i + 1;
      }
      assert memory[..] == font + seq(Machine.MemorySize - |font|, _ => 0);
    }

    /** `Draw`: report whether a redraw is pending, and clear the flag. */
    method Draw() returns (sd: bool)
      requires Valid()
      modifies this`doDraw
      ensures Valid() && (sd, State()) == Machine.TakeDraw(old(State()))
    {
      sd := doDraw;
      doDraw := false;
    }

    /** `Push`: a return address into the top slot if it is zero, else into the next slot up. */
    method Push(inst: Word)
      requires Valid() && Machine.PushFits(State())
      modifies this`sp, stack
      ensures Valid() && State() == Machine.Push(old(State()), inst)
    {
      if stack[sp] == 0 {
        stack[sp] := inst;
      } else {
        sp := sp + 1;
        stack[sp] := inst;
      }
    }

    /** `Pop`: the return address in the top slot; the stack pointer stays where it is. */
    method Pop() returns (a: Word)
      requires Valid()
      ensures a == Machine.Pop(State())
    {
      a := stack[sp];
    }

    /** `Key`: key `num` is 1 when down, 0 when up. */
    method Key(num: Byte, down: bool)
      requires Valid() && num < Machine.KeyCount
      modifies key
      ensures Valid() && State() == Machine.SetKey(old(State()), num, down)
    {
      if down {
        key[num] := 1;
      } else {
        key[num] := 0;
      }
    }

    /** `Cycle`: fetch the opcode at pc, move pc past it, execute it, then tick the delay timer. */
    method Cycle()
      requires Valid() && Machine.Cycle(State()).Next?
      modifies this, memory, display, stack, vx
      ensures Valid() && State() == Machine.Cycle(old(State())).after
    {
      ghost var s := State();
      oc := memory[pc] as int * 0x100 + memory[Add16(pc, 1)];
      pc := Add16(pc, 2);
      assert State() == Machine.Fetched(s);
      Execute();
      ghost var executed := State();
      assert executed == Machine.Execute(Machine.Fetched(s)).after;
      if delayTimer > 0 {
        delayTimer := delayTimer - 1;
      }
      assert State() == Machine.Tick(executed);
    }

    /** The decode-and-execute part of `Cycle`, on the opcode in oc. */
    method Execute()
      requires Valid() && Machine.Execute(State()).Next?
      modifies this, memory, display, stack, vx
      ensures Valid() && State() == Machine.Execute(old(State())).after
    {
      var family := Machine.Family(oc);
      if family == 0x0 {
        if oc == 0x00E0 {
          ClearDisplay();
          doDraw := true;
        } else if oc == 0x00EE {
          pc := Pop();
        }
      } else if family == 0x1 {
        pc := Machine.NNN(oc);
      } else if family == 0x2 {
        Push(pc);
        pc := Machine.NNN(oc);
      } else if family == 0x3 {
        if vx[Machine.X(oc)] == Machine.NN(oc) {
          pc := Add16(pc, 2);
        }
      } else if family == 0x4 {
        if vx[Machine.X(oc)] != Machine.NN(oc) {
          pc := Add16(pc, 2);
        }
      } else if family == 0x5 {
        if vx[Machine.X(oc)] == vx[Machine.Y(oc)] {
          pc := Add16(pc, 2);
        }
      } else if family == 0x6 {
        vx[Machine.X(oc)] := Machine.NN(oc);
      } else if family == 0x7 {
        var x := Machine.X(oc);
        vx[x] := Add8(vx[x], Machine.NN(oc));
      } else if family == 0x8 {
        Arithmetic();
      } else if family == 0x9 {
        if vx[Machine.X(oc)] != vx[Machine.Y(oc)] {
          pc := Add16(pc, 2);
        }
      } else if family == 0xA {
        iv := Machine.NNN(oc);
      } else if family == 0xD {
        DrawSprite();
      } else if family == 0xE {
        KeySkip();
      } else if family == 0xF {
        Misc();
      }
    }

    /** 00E0: every cell of the display set to 0. */
    method ClearDisplay()
      requires Valid()
      modifies display
      ensures Valid() && Buffer() == Machine.Blank()
    {
      var i := 0;
      while i < display.Length0
        invariant 0 <= i <= display.Length0
        invariant forall r, c :: 0 <= r < i && 0 <= c < display.Length1 ==> display[r, c] == 0
      {
        var j := 0;
        while j < display.Length1
          invariant 0 <= j <= display.Length1
          invariant forall r, c :: 0 <= r < i && 0 <= c < display.Length1 ==> display[r, c] == 0
          invariant forall c :: 0 <= c < j ==> display[i, c] == 0
        {
          display[i, j] := 0;
          j := j + 1;
        }
        i := i + 1;
      }
      forall r | 0 <= r < Sprite.Height
        ensures Buffer()[r] == Machine.Blank()[r]
      {
      }
    }

    /** 8xyn, reading and writing the registers in the order the Go code does. */
    method Arithmetic()
      requires Valid() && Machine.Family(oc) == 0x8
      modifies vx
      ensures Valid()
      ensures State() == Machine.Arithmetic(old(State()), Machine.X(oc), Machine.Y(oc), Machine.N(oc))
    {
      var x, y, n := Machine.X(oc), Machine.Y(oc), Machine.N(oc);
      if n == 0x0 {
        vx[x] := vx[y];
      } else if n == 0x1 {
        vx[x] := Or8(vx[x], vx[y]);
      } else if n == 0x2 {
        vx[x] := And8(vx[x], vx[y]);
      } else if n == 0x3 {
        vx[x] := Xor8(vx[x], vx[y]);
      } else if n == 0x4 {
        // The Go test `vx[x]+vx[y] > 255` is on a wrapped uint8 and never holds: its else branch.
        vx[x] := Add8(vx[x], vx[y]);
        vx[Machine.VF] := 1;
      } else if n == 0x5 {
        if vx[x] > vx[y] {
          vx[Machine.VF] := 1;
          vx[x] := Sub8(vx[x], vx[y]);
        } else {
          vx[Machine.VF] := 0;
        }
      } else if n == 0x6 {
        vx[Machine.VF] := And8(vx[x], 1);
        vx[x] := Shr8(vx[x], 1);
      } else if n == 0x7 {
        if vx[y] > vx[x] {
          vx[Machine.VF] := 1;
          vx[y] := Sub8(vx[y], vx[x]);
        } else {
          vx[Machine.VF] := 0;
        }
        vx[x] := Sub8(vx[y], vx[x]);
      }
    }

    /** Dxyn: XOR the n sprite rows at iv onto the display at (Vx, Vy), VF = 1 on a collision. */
    method DrawSprite()
      requires Valid() && Machine.Family(oc) == 0xD && Machine.DrawSprite(State()).Next?
      modifies display, vx, this`doDraw
      ensures Valid() && State() == Machine.DrawSprite(old(State())).after
    {
      ghost var s := State();
      var n := Machine.N(oc);
      var x := vx[Machine.X(oc)];
      var y := vx[Machine.Y(oc)];
      assert Machine.InMemory(iv, n);
      ghost var rows := Machine.SpriteRows(s, n);
      assert Sprite.OnScreen(rows, x, y);
      vx[Machine.VF] := 0;
      assert Canvas() == Sprite.Canvas(s.display, false);
      DrawRows(n, x, y, rows);
      doDraw := true;
      ghost var drawn := Sprite.Draw(s.display, rows, x, y);
      assert Canvas() == drawn;
      assert vx[..] == s.v[Machine.VF := if drawn.collided then 1 else 0];
    }

    /** The outer loop of Dxyn: the n sprite rows at iv, row i onto display row y + i. */
    method DrawRows(n: nat, x: Byte, y: Byte, ghost rows: seq<Byte>)
      requires Valid() && vx[Machine.VF] <= 1
      requires n < 0x10 && |rows| == n && forall i :: 0 <= i < n ==> Add16(iv, i) < memory.Length && memory[Add16(iv, i)] == rows[i]
      requires Sprite.OnScreen(rows, x, y)
      modifies display, vx
      ensures Valid() && vx[..] == old(vx[..])[Machine.VF := vx[Machine.VF]] && vx[Machine.VF] <= 1
      ensures Canvas() == Sprite.DrawRows(old(Canvas()), rows, x, y, n)
    {
      ghost var start := Canvas();
      var i := 0;
      while i < n
        invariant 0 <= i <= n
        invariant vx[..] == old(vx[..])[Machine.VF := vx[Machine.VF]] && vx[Machine.VF] <= 1
        invariant Canvas() == Sprite.DrawRows(start, rows, x, y, i)
      {
        var pixel := memory[Add16(iv, i)];
        Sprite.OnScreenRow(rows, x, y, i);
        Sprite.DrawRowsNext(start, rows, x, y, i);
        DrawRow(pixel, x, Sprite.Row(y, i));
        i := i + 1;
      }
    }

    /** The display and VF as a canvas: VF = 1 records a collision. */
    ghost function Canvas(): Sprite.Canvas
      reads this, display, vx
      requires Valid()
    {
      Sprite.Canvas(Buffer(), vx[Machine.VF] == 1)
    }

    /** The inner loop of Dxyn: the eight bits of one sprite row onto display row `row`. */
    method DrawRow(bits: Byte, x: Byte, row: nat)
      requires Valid() && vx[Machine.VF] <= 1
      requires forall k :: 0 <= k < 8 && BitSet(bits, k) ==> row < Sprite.Height && Sprite.Col(x, k) < Sprite.Width
      modifies display, vx
      ensures Valid() && vx[..] == old(vx[..])[Machine.VF := vx[Machine.VF]] && vx[Machine.VF] <= 1
      ensures Canvas() == Sprite.DrawBits(old(Canvas()), bits, x, row, 8)
    {
      var j := 0;
      while j < 8
        invariant 0 <= j <= 8
        invariant vx[..] == old(vx[..])[Machine.VF := vx[Machine.VF]]
        invariant vx[Machine.VF] <= 1
        invariant Canvas() == Sprite.DrawBits(old(Canvas()), bits, x, row, j)
      {
        if BitSet(bits, j) {
          Plot(row, Add8(x, j));
        }
        j := j + 1;
      }
    }

    /** The body of the inner loop of Dxyn for a set bit: a lit cell sets VF = 1; the cell is toggled. */
    method Plot(row: nat, col: nat)
      requires Valid() && row < Sprite.Height && col < Sprite.Width && vx[Machine.VF] <= 1
      modifies display, vx
      ensures Valid() && vx[..] == old(vx[..])[Machine.VF := vx[Machine.VF]] && vx[Machine.VF] <= 1
      ensures Canvas() == Sprite.Plot(old(Canvas()), row, col)
    {
      ghost var before := Buffer();
      if display[row, col] == 1 {
        vx[Machine.VF] := 1;
      }
      display[row, col] := Toggle(display[row, col]);
      forall r | 0 <= r < Sprite.Height
        ensures Buffer()[r] == Sprite.Flip(before, row, col)[r]
      {
      }
    }

    /** Ex9E skips when key Vx is down; every other Ex?? skips when it is not. */
    method KeySkip()
      requires Valid() && Machine.Family(oc) == 0xE && Machine.KeySkip(State()).Next?
      modifies this`pc
      ensures Valid() && State() == Machine.KeySkip(old(State())).after
    {
      var k := vx[Machine.X(oc)];
      if Machine.NN(oc) == 0x9E {
        if key[k] == 1 {
          pc := Add16(pc, 2);
        }
      } else {
        if key[k] != 1 {
          pc := Add16(pc, 2);
        }
      }
    }

    /** The Fx?? family, selected by the low byte of oc. */
    method Misc()
      requires Valid() && Machine.Family(oc) == 0xF && Machine.Misc(State()).Next?
      modifies this, memory, vx
      ensures Valid() && State() == Machine.Misc(old(State())).after
    {
      var x := Machine.X(oc);
      var sel := Machine.NN(oc);
      if sel == 0x07 {
        vx[x] := delayTimer;
      } else if sel == 0x0A {
        pc := Sub16(pc, 2);
        if key[x] == 1 {
          pc := Add16(pc, 2);
          vx[x] := x;
        }
      } else if sel == 0x15 {
        delayTimer := vx[x];
      } else if sel == 0x18 {
        soundTimer := vx[x];
      } else if sel == 0x1E {
        if Add16(iv, vx[x]) > 0xFFF {
          vx[Machine.VF] := 1;
        } else {
          vx[Machine.VF] := 0;
        }
        iv := Add16(iv, vx[x]);
      } else if sel == 0x29 {
        iv := vx[x] as int * 5;
      } else if sel == 0x33 {
        StoreDigits(vx[x]);
      } else if sel == 0x55 {
        StoreRegisters(x);
        iv := x + 1;
      } else if sel == 0x65 {
        LoadRegisters(x);
        iv := x + 1;
      }
    }

    /** The three stores of Fx33 at iv, iv+1, iv+2: hundreds, tens, and hundreds again mod 10. */
    method StoreDigits(b: Byte)
      requires Valid() && Machine.InMemory(iv, 3)
      modifies memory
      ensures Valid()
      ensures memory[..] == old(memory[..])[Add16(iv, 0) := b / 100][Add16(iv, 1) := b / 10 % 10][Add16(iv, 2) := b / 100 % 10]
    {
      assert Add16(iv, 0) < Machine.MemorySize && Add16(iv, 1) < Machine.MemorySize && Add16(iv, 2) < Machine.MemorySize;
      memory[iv] := b / 100;
      memory[Add16(iv, 1)] := b / 10 % 10;
      memory[Add16(iv, 2)] := b / 100 % 10;
    }

    /** The Fx55 loop: memory[iv + i] = Vi for i = 0 .. x+1, one register past Vx. */
    method StoreRegisters(x: nat)
      requires Valid() && x + 2 <= Machine.RegisterCount && Machine.InMemory(iv, x + 2)
      modifies memory
      ensures Valid() && memory[..] == Machine.StoreRegisters(old(memory[..]), vx[..], iv, x + 2)
    {
      var i := 0;
      while i <= x + 1
        invariant 0 <= i <= x + 2
        invariant memory[..] == Machine.StoreRegisters(old(memory[..]), vx[..], iv, i)
      {
        memory[Add16(iv, i)] := vx[i];
        i := i + 1;
      }
    }

    /** The Fx65 loop: Vi = memory[iv + i] for i = 0 .. x. */
    method LoadRegisters(x: nat)
      requires Valid() && x < Machine.RegisterCount && Machine.InMemory(iv, x + 1)
      modifies vx
      ensures Valid() && vx[..] == Machine.LoadRegisters(old(vx[..]), memory[..], iv, x + 1)
    {
      var i := 0;
      while i < x + 1
        invariant 0 <= i <= x + 1
        invariant vx[..] == Machine.LoadRegisters(old(vx[..]), memory[..], iv, i)
      {
        vx[i] := memory[Add16(iv, i)];
        i := i + 1;
      }
    }

    /** `Load` of a program's bytes: refused (true) when larger than the memory above 0x200,
        otherwise copied to 0x200 on (false). */
    method Load(program: seq<Byte>) returns (failed: bool)
      requires Valid()
      modifies memory
      ensures Valid()
      ensures failed <==> Machine.Load(old(State()), program).ProgramTooLarge?
      ensures failed ==> State() == old(State())
      ensures !failed ==> State() == Machine.Load(old(State()), program).after
    {
      if memory.Length - Machine.ProgramStart < |program| {
        return true;
      }
      var i := 0;
      while i < |program|
        invariant 0 <= i <= |program|
        invariant memory[..] == old(memory[..])[..Machine.ProgramStart] + program[..i] +
                                old(memory[..])[Machine.ProgramStart + i..]
      {
        memory[i + Machine.ProgramStart] := program[i];
        i := i + 1;
      }
      return false;
    }
  }
}
