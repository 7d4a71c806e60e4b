/**
 * Fetch and decode: the two bytes at the program counter form a big-endian
 * 16-bit word, which is split into four nibbles (a, b, c, d) and matched
 * against the instruction patterns in the order of `CPU::run`.
 */
module Opcode {
  import opened Bytes

  type Nibble = x: int | 0 <= x < 0x10
  type Addr = x: int | 0 <= x < 0x1000

  /** `((ins_a as u16) << 8) | ins_b as u16`: the byte at pc is the high byte. */
  function Word(hi: U8, lo: U8): (w: U16)
    ensures w / 0x100 == hi && w % 0x100 == lo
  {
    DivMod256(hi, lo);
    hi * 0x100 + lo
  }

  datatype Nibbles = Nibbles(a: Nibble, b: Nibble, c: Nibble, d: Nibble)

  /** The four nibbles of a word, most significant first (masks 0xF000, 0x0F00, 0x00F0, 0x000F). */
  function Split(w: U16): (n: Nibbles)
    ensures n.a * 0x1000 + n.b * 0x100 + n.c * 0x10 + n.d == w
  {
    var w1 := w / 0x10;
    var w2 := w1 / 0x10;
    Nibbles(w2 / 0x10, w2 % 0x10, w1 % 0x10, w % 0x10)
  }

  /** The 12-bit address `nnn` built from nibbles b, c, d. */
  function Nnn(b: Nibble, c: Nibble, d: Nibble): (r: Addr)
    ensures r / 0x100 == b && (r / 0x10) % 0x10 == c && r % 0x10 == d
  {
    DivMod256(b, c * 0x10 + d);
    DivMod16(b * 0x10 + c, d);
    DivMod16(b, c);
    b * 0x100 + c * 0x10 + d
  }

  /** The byte immediate `kk` built from nibbles c, d. */
  function Kk(c: Nibble, d: Nibble): (r: U8)
    ensures r / 0x10 == c && r % 0x10 == d
  {
    DivMod16(c, d);
    c * 0x10 + d
  }

  /** One decoded instruction, named after the handler it dispatches to. */
  datatype Instr =
    | Clear                               // 00E0
    | Ret                                 // 00EE
    | Jmp(nnn: Addr)                      // 1nnn
    | Call(nnn: Addr)                     // 2nnn
    | Skip(x: Nibble, kk: U8)             // 3xkk
    | SkipIfNot(x: Nibble, kk: U8)        // 4xkk
    | SkipR(x: Nibble, y: Nibble)         // 5xy0
    | SetI(x: Nibble, kk: U8)             // 6xkk
    | AddI(x: Nibble, kk: U8)             // 7xkk
    | Store(x: Nibble, y: Nibble)         // 8xy0
    | Or(x: Nibble, y: Nibble)            // 8xy1
    | And(x: Nibble, y: Nibble)           // 8xy2
    | Xor(x: Nibble, y: Nibble)           // 8xy3
    | Add(x: Nibble, y: Nibble)           // 8xy4
    | Sub(x: Nibble, y: Nibble)           // 8xy5
    | Shr(x: Nibble, y: Nibble)           // 8xy6
    | Subn(x: Nibble, y: Nibble)          // 8xy7
    | Shl(x: Nibble, y: Nibble)           // 8xyE
    | SkipRNot(x: Nibble, y: Nibble)      // 9xy0
    | LoadI(nnn: Addr)                    // Annn
    | JmpPc(nnn: Addr)                    // Bnnn
    | Rnd(x: Nibble, kk: U8)              // Cxkk
    | Draw(x: Nibble, y: Nibble, n: Nibble) // Dxyn
    | SkipIfKey(x: Nibble)                // Ex9E
    | SkipIfNotKey(x: Nibble)             // ExA1
    | LoadDelay(x: Nibble)                // Fx07
    | WaitForKey(x: Nibble)               // Fx0A
    | SetDelay(x: Nibble)                 // Fx15
    | SetSound(x: Nibble)                 // Fx18
    | AddToI(x: Nibble)                   // Fx1E
    | SetIToSprite(x: Nibble)             // Fx29
    | StoreBcd(x: Nibble)                 // Fx33
    | RegToMem(x: Nibble)                 // Fx55
    | MemToReg(x: Nibble)                 // Fx65
    | Unknown                             // anything else: the run stops

  /** The dispatch table of `CPU::run`. */
  function Decode(n: Nibbles): (i: Instr)
    ensures i.Unknown? ==> n.a == 0 || n.a == 5 || n.a == 8 || n.a == 9 || n.a == 0xE || n.a == 0xF
  {
    var Nibbles(a, b, c, d) := n;
    if a == 0x0 then
      if b == 0x0 && c == 0xE && d == 0x0 then Clear
      else if b == 0x0 && c == 0xE && d == 0xE then Ret
      else Unknown
    else if a == 0x1 then Jmp(Nnn(b, c, d))
    else if a == 0x2 then Call(Nnn(b, c, d))
    else if a == 0x3 then Skip(b, Kk(c, d))
    else if a == 0x4 then SkipIfNot(b, Kk(c, d))
    else if a == 0x5 then (if d == 0x0 then SkipR(b, c) else Unknown)
    else if a == 0x6 then SetI(b, Kk(c, d))
    else if a == 0x7 then AddI(b, Kk(c, d))
    else if a == 0x8 then
      if d == 0x0 then Store(b, c)
      else if d == 0x1 then Or(b, c)
      else if d == 0x2 then And(b, c)
      else if d == 0x3 then Xor(b, c)
      else if d == 0x4 then Add(b, c)
      else if d == 0x5 then Sub(b, c)
      else if d == 0x6 then Shr(b, c)
      else if d == 0x7 then Subn(b, c)
      else if d == 0xE then Shl(b, c)
      else Unknown
    else if a == 0x9 then (if d == 0x0 then SkipRNot(b, c) else Unknown)
    else if a == 0xA then LoadI(Nnn(b, c, d))
    else if a == 0xB then JmpPc(Nnn(b, c, d))
    else if a == 0xC then Rnd(b, Kk(c, d))
    else if a == 0xD then Draw(b, c, d)
    else if a == 0xE then
      if c == 0x9 && d == 0xE then SkipIfKey(b)
      else if c == 0xA && d == 0x1 then SkipIfNotKey(b)
      else Unknown
    else
      if c == 0x0 && d == 0x7 then LoadDelay(b)
      else if c == 0x0 && d == 0xA then WaitForKey(b)
      else if c == 0x1 && d == 0x5 then SetDelay(b)
      else if c == 0x1 && d == 0x8 then SetSound(b)
      else if c == 0x1 && d == 0xE then AddToI(b)
      else if c == 0x2 && d == 0x9 then SetIToSprite(b)
      else if c == 0x3 && d == 0x3 then StoreBcd(b)
      else if c == 0x5 && d == 0x5 then RegToMem(b)
      else if c == 0x6 && d == 0x5 then MemToReg(b)
      else Unknown
  }

  /** Decode the two bytes fetched at the program counter. */
  function Fetch(hi: U8, lo: U8): Instr
  {
    Decode(Split(Word(hi, lo)))
  }

  function Pack(n: Nibbles): (w: U16)
    ensures Split(w) == n
  {
    var Nibbles(a, b, c, d) := n;
    DivMod4096(a, b * 0x100 + c * 0x10 + d);
    DivMod256(a * 0x10 + b, c * 0x10 + d);
    DivMod16(a * 0x100 + b * 0x10 + c, d);
    DivMod16(a * 0x10 + b, c);
    a * 0x1000 + b * 0x100 + c * 0x10 + d
  }

  /** The nibbles of an instruction: the pattern it is matched by, with its operands filled in. */
  function Fields(i: Instr): Nibbles
    requires !i.Unknown?
  {
    match i
    case Clear => Nibbles(0x0, 0x0, 0xE, 0x0)
    case Ret => Nibbles(0x0, 0x0, 0xE, 0xE)
    case Jmp(nnn) => Nibbles(0x1, nnn / 0x100, (nnn / 0x10) % 0x10, nnn % 0x10)
    case Call(nnn) => Nibbles(0x2, nnn / 0x100, (nnn / 0x10) % 0x10, nnn % 0x10)
    case Skip(x, kk) => Nibbles(0x3, x, kk / 0x10, kk % 0x10)
    case SkipIfNot(x, kk) => Nibbles(0x4, x, kk / 0x10, kk % 0x10)
    case SkipR(x, y) => Nibbles(0x5, x, y, 0x0)
    case SetI(x, kk) => Nibbles(0x6, x, kk / 0x10, kk % 0x10)
    case AddI(x, kk) => Nibbles(0x7, x, kk / 0x10, kk % 0x10)
    case Store(x, y) => Nibbles(0x8, x, y, 0x0)
    case Or(x, y) => Nibbles(0x8, x, y, 0x1)
    case And(x, y) => Nibbles(0x8, x, y, 0x2)
    case Xor(x, y) => Nibbles(0x8, x, y, 0x3)
    case Add(x, y) => Nibbles(0x8, x, y, 0x4)
    case Sub(x, y) => Nibbles(0x8, x, y, 0x5)
    case Shr(x, y) => Nibbles(0x8, x, y, 0x6)
    case Subn(x, y) => Nibbles(0x8, x, y, 0x7)
    case Shl(x, y) => Nibbles(0x8, x, y, 0xE)
    case SkipRNot(x, y) => Nibbles(0x9, x, y, 0x0)
    case LoadI(nnn) => Nibbles(0xA, nnn / 0x100, (nnn / 0x10) % 0x10, nnn % 0x10)
    case JmpPc(nnn) => Nibbles(0xB, nnn / 0x100, (nnn / 0x10) % 0x10, nnn % 0x10)
    case Rnd(x, kk) => Nibbles(0xC, x, kk / 0x10, kk % 0x10)
    case Draw(x, y, n) => Nibbles(0xD, x, y, n)
    case SkipIfKey(x) => Nibbles(0xE, x, 0x9, 0xE)
    case SkipIfNotKey(x) => Nibbles(0xE, x, 0xA, 0x1)
    case LoadDelay(x) => Nibbles(0xF, x, 0x0, 0x7)
    case WaitForKey(x) => Nibbles(0xF, x, 0x0, 0xA)
    case SetDelay(x) => Nibbles(0xF, x, 0x1, 0x5)
    case SetSound(x) => Nibbles(0xF, x, 0x1, 0x8)
    case AddToI(x) => Nibbles(0xF, x, 0x1, 0xE)
    case SetIToSprite(x) => Nibbles(0xF, x, 0x2, 0x9)
    case StoreBcd(x) => Nibbles(0xF, x, 0x3, 0x3)
    case RegToMem(x) => Nibbles(0xF, x, 0x5, 0x5)
    case MemToReg(x) => Nibbles(0xF, x, 0x6, 0x5)
  }

  /** The word that encodes an instruction. */
  function Encode(i: Instr): U16
    requires !i.Unknown?
  {
    Pack(Fields(i))
  }

  lemma AddrNibbles(nnn: Addr)
    ensures Nnn(nnn / 0x100, (nnn / 0x10) % 0x10, nnn % 0x10) == nnn
  {
  }

  lemma ByteNibbles(kk: U8)
    ensures Kk(kk / 0x10, kk % 0x10) == kk
  {
  }

  /** Every instruction is decoded from its own encoding. */
  lemma DecodeEncode(i: Instr)
    requires !i.Unknown?
    ensures Decode(Split(Encode(i))) == i
  {
    assert Split(Encode(i)) == Fields(i);
    if i.Jmp? || i.Call? || i.LoadI? || i.JmpPc? {
      AddrNibbles(i.nnn);
    } else if i.Skip? || i.SkipIfNot? || i.SetI? || i.AddI? || i.Rnd? {
      ByteNibbles(i.kk);
    } else if i.Store? || i.Or? || i.And? || i.Xor? || i.Add? || i.Sub? || i.Shr? || i.Subn? || i.Shl? {
      DecodeAlu(i);
    } else if i.LoadDelay? || i.WaitForKey? || i.SetDelay? || i.SetSound? || i.AddToI? ||
              i.SetIToSprite? || i.StoreBcd? || i.RegToMem? || i.MemToReg? {
      DecodeTimersAndMemory(i);
    }
  }

  /** The 8xy_ arithmetic patterns are told apart by their last nibble. */
  lemma DecodeAlu(i: Instr)
    requires i.Store? || i.Or? || i.And? || i.Xor? || i.Add? || i.Sub? || i.Shr? || i.Subn? || i.Shl?
    ensures Decode(Fields(i)) == i
  {
  }

  /** The Fx__ patterns are told apart by their last two nibbles. */
  lemma DecodeTimersAndMemory(i: Instr)
    requires i.LoadDelay? || i.WaitForKey? || i.SetDelay? || i.SetSound? || i.AddToI? ||
             i.SetIToSprite? || i.StoreBcd? || i.RegToMem? || i.MemToReg?
    ensures Decode(Fields(i)) == i
  {
  }

  /** Every recognised word is the encoding of what it decodes to. */
  lemma EncodeDecode(w: U16)
    requires !Decode(Split(w)).Unknown?
    ensures Encode(Decode(Split(w))) == w
  {
    var n := Split(w);
    FieldsDecode(n);
    assert Split(Pack(n)) == Split(w);
  }

  /** Decoding a pattern and filling it back in gives the same nibbles. */
  lemma FieldsDecode(n: Nibbles)
    requires !Decode(n).Unknown?
    ensures Fields(Decode(n)) == n
  {
    var Nibbles(a, b, c, d) := n;
    if a == 0x0 || a == 0x5 || a == 0x8 || a == 0x9 || a == 0xD || a == 0xE || a == 0xF {
    } else if a == 0x1 || a == 0x2 || a == 0xA || a == 0xB {
      assert Decode(n).nnn == Nnn(b, c, d);
    } else {
      assert Decode(n).kk == Kk(c, d);
    }
  }

  /** The operands of a fetched instruction: nnn is the low 12 bits of the word, x the low nibble of its first byte, kk its second byte. */
  lemma OperandsOfWord(hi: U8, lo: U8)
    ensures var ins := Fetch(hi, lo);
      && (ins.Jmp? || ins.Call? || ins.LoadI? || ins.JmpPc? ==> ins.nnn == Word(hi, lo) % 0x1000)
      && (ins.Skip? || ins.SkipIfNot? || ins.SetI? || ins.AddI? || ins.Rnd? ==> ins.x == hi % 0x10 && ins.kk == lo)
  {
    var w := Word(hi, lo);
    var n := Split(w);
    var ins := Fetch(hi, lo);
    DivMod4096(n.a, Nnn(n.b, n.c, n.d));
    DivMod16(hi / 0x10, hi % 0x10);
    assert n.a * 0x10 + n.b == hi && Kk(n.c, n.d) == lo by {
      DivMod256(n.a * 0x10 + n.b, Kk(n.c, n.d));
    }
    DivMod16(n.a, n.b);
  }

  /** The zero word, the bytes a self-jump leaves behind, matches no pattern. */
  lemma ZeroWordIsUnknown()
    ensures Fetch(0, 0) == Unknown
  {
  }
}
