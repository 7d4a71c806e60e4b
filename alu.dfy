/**
 * What the 8xy_ handlers compute, stated as plain arithmetic on the old
 * register values: the carry and borrow flags, the shifted-out bit, and the
 * effect of the write order when x or y is VF itself.
 */
module Alu {
  import opened Bytes
  import Isa

  /** 8xy4: VF:Vx is the 9-bit sum of Vx and Vy, so VF is 1 exactly when the sum exceeds 255. */
  lemma AddCarries(s: Isa.State, x: Isa.Reg, y: Isa.Reg)
    requires Isa.Wf(s) && x != Isa.FLAG
    ensures var r := Isa.Add(s, x, y);
      && r.registers[Isa.FLAG] as int * 0x100 + r.registers[x] == s.registers[x] as int + s.registers[y]
      && (r.registers[Isa.FLAG] == 1 <==> s.registers[x] as int + s.registers[y] > 0xFF)
  {
  }

  /** 8Fy4: VF is written last, so the carry overwrites the sum. */
  lemma AddIntoFlagKeepsCarry(s: Isa.State, y: Isa.Reg)
    requires Isa.Wf(s)
    ensures var r := Isa.Add(s, Isa.FLAG, y);
      r.registers[Isa.FLAG] == if s.registers[Isa.FLAG] as int + s.registers[y] > 0xFF then 1 else 0
  {
  }

  /** 8xy5: VF is 1 exactly when Vx > Vy (strictly), and Vx becomes Vx - Vy modulo 256. */
  lemma SubBorrows(s: Isa.State, x: Isa.Reg, y: Isa.Reg)
    requires Isa.Wf(s) && x != Isa.FLAG && y != Isa.FLAG
    ensures var r := Isa.Sub(s, x, y);
      && (r.registers[Isa.FLAG] == 1 <==> s.registers[x] > s.registers[y])
      && r.registers[Isa.FLAG] <= 1
      && r.registers[x] as int + s.registers[y] == s.registers[x] as int + if s.registers[x] < s.registers[y] then 0x100 else 0
  {
  }

  /** 8xF5: VF is written before Vx is updated, so Vx loses the new flag, not the old VF. */
  lemma SubOfFlagUsesNewFlag(s: Isa.State, x: Isa.Reg)
    requires Isa.Wf(s) && x != Isa.FLAG
    ensures var r := Isa.Sub(s, x, Isa.FLAG);
      r.registers[x] == if s.registers[x] > s.registers[Isa.FLAG] then s.registers[x] - 1 else s.registers[x]
  {
  }

  /** 8Fy5: Vx is written last, so VF ends as the new flag minus Vy, modulo 256. */
  lemma SubIntoFlagLosesFlag(s: Isa.State, y: Isa.Reg)
    requires Isa.Wf(s) && y != Isa.FLAG
    ensures var r := Isa.Sub(s, Isa.FLAG, y);
      (r.registers[Isa.FLAG] as int + s.registers[y]) % 0x100 == if s.registers[Isa.FLAG] > s.registers[y] then 1 else 0
  {
  }

  /** 8xy7: VF is 1 exactly when Vy > Vx, and Vx becomes Vy - Vx modulo 256. */
  lemma SubnBorrows(s: Isa.State, x: Isa.Reg, y: Isa.Reg)
    requires Isa.Wf(s) && x != Isa.FLAG && y != Isa.FLAG
    ensures var r := Isa.Subn(s, x, y);
      && (r.registers[Isa.FLAG] == 1 <==> s.registers[y] > s.registers[x])
      && r.registers[Isa.FLAG] <= 1
      && r.registers[x] as int + s.registers[x] == s.registers[y] as int + if s.registers[y] < s.registers[x] then 0x100 else 0
  {
  }

  /** 8xF7: VF is written before Vx is updated, so Vx becomes the new flag minus Vx, not the old VF minus Vx. */
  lemma SubnOfFlagUsesNewFlag(s: Isa.State, x: Isa.Reg)
    requires Isa.Wf(s) && x != Isa.FLAG
    ensures var r := Isa.Subn(s, x, Isa.FLAG);
      && r.registers[Isa.FLAG] == (if s.registers[Isa.FLAG] > s.registers[x] then 1 else 0)
      && (r.registers[x] as int + s.registers[x]) % 0x100 == r.registers[Isa.FLAG]
  {
  }

  /** 8Fy7: Vx is written last, so VF ends as Vy minus the new flag, modulo 256. */
  lemma SubnIntoFlagLosesFlag(s: Isa.State, y: Isa.Reg)
    requires Isa.Wf(s) && y != Isa.FLAG
    ensures var r := Isa.Subn(s, Isa.FLAG, y);
      (r.registers[Isa.FLAG] as int + if s.registers[y] > s.registers[Isa.FLAG] then 1 else 0) % 0x100 == s.registers[y]
  {
  }

  /** 8xy6: VF gets the bit shifted out, so 2 * Vx + VF is the old Vx. */
  lemma ShrKeepsLowBit(s: Isa.State, x: Isa.Reg)
    requires Isa.Wf(s) && x != Isa.FLAG
    ensures var r := Isa.Shr(s, x);
      && r.registers[Isa.FLAG] == s.registers[x] % 2
      && 2 * r.registers[x] as int + r.registers[Isa.FLAG] == s.registers[x]
  {
    AndOne(s.registers[x]);
  }

  /** 8F_6: the flag is shifted right after it is written, so VF always ends 0. */
  lemma ShrOfFlagClears(s: Isa.State)
    requires Isa.Wf(s)
    ensures Isa.Shr(s, Isa.FLAG).registers[Isa.FLAG] == 0
  {
    AndOne(s.registers[Isa.FLAG]);
  }

  /** 8xyE: VF gets the bit shifted out, so VF:Vx is twice the old Vx. */
  lemma ShlKeepsHighBit(s: Isa.State, x: Isa.Reg)
    requires Isa.Wf(s) && x != Isa.FLAG
    ensures var r := Isa.Shl(s, x);
      && r.registers[Isa.FLAG] == s.registers[x] / 0x80
      && r.registers[Isa.FLAG] as int * 0x100 + r.registers[x] == 2 * s.registers[x] as int
  {
    AndOne(s.registers[x] / 0x80);
  }

  /** 8F_E: the flag is shifted left after it is written, so VF ends twice the old top bit. */
  lemma ShlOfFlagDoubles(s: Isa.State)
    requires Isa.Wf(s)
    ensures Isa.Shl(s, Isa.FLAG).registers[Isa.FLAG] == 2 * (s.registers[Isa.FLAG] as int / 0x80)
  {
    AndOne(s.registers[Isa.FLAG] / 0x80);
  }

  /** 8xy3 twice with the same y != x gives back the old state. */
  lemma XorTwiceRestores(s: Isa.State, x: Isa.Reg, y: Isa.Reg)
    requires Isa.Wf(s) && x != y
    ensures Isa.Xor(Isa.Xor(s, x, y), x, y) == s
  {
    var a, b := s.registers[x], s.registers[y];
    assert Pow2(8) == 0x100;
    XorTwice(a, b, 8);
    assert Xor8(Xor8(a, b), b) == a;
    assert Isa.Xor(Isa.Xor(s, x, y), x, y).registers == s.registers;
  }

  /** 8xy1 is idempotent for y != x. */
  lemma OrTwiceIsOnce(s: Isa.State, x: Isa.Reg, y: Isa.Reg)
    requires Isa.Wf(s) && x != y
    ensures Isa.Or(Isa.Or(s, x, y), x, y) == Isa.Or(s, x, y)
  {
    var a, b := s.registers[x], s.registers[y];
    OrIdempotent(a, b, 8);
    assert Or8(Or8(a, b), b) == Or8(a, b);
  }

  /** 8xy2 is idempotent for y != x. */
  lemma AndTwiceIsOnce(s: Isa.State, x: Isa.Reg, y: Isa.Reg)
    requires Isa.Wf(s) && x != y
    ensures Isa.And(Isa.And(s, x, y), x, y) == Isa.And(s, x, y)
  {
    var a, b := s.registers[x], s.registers[y];
    And8Within(a, b);
    assert And8(And8(a, b), b) == And8(a, b);
  }
}
