/** The instruction descriptor and the 256-entry primary decode table
    (`instruction_by_opcode`), with the regularities of the table proved as lemmas. */
module Instruction {
  import opened Wrappers
  import opened Enums
  import opened Common

  // Opcodes are plain integers 0..255 (`Byte`), so that the table is an integer
  // `match` and the bit fields of an opcode are `/` and `%` by powers of two.

  /** One immutable descriptor per opcode. Only RST carries a parameter. */
  datatype Instruction = Instruction(
    insType: InstructionType,
    addrMode: AddressMode,
    reg1: RegisterType,
    reg2: RegisterType,
    condType: ConditionType,
    param: Option<Byte>)

  /** `Instruction::default()`: the values of every field an entry does not set. */
  const Default: Instruction :=
    Instruction(InstructionType.None, Imp, RegisterType.None, RegisterType.None, ConditionType.None, Option.None)

  /** `instruction_by_opcode`: the primary decode table. The source is one flat
      `match`; here the same entries are grouped by the opcode's high nibble, one
      row function per group of sixteen, and every opcode without an entry decodes
      to `Undefined`. */
  function InstructionByOpcode(opcode: Byte): Instruction
  {
    if opcode < 0x10 then Row0(opcode)
    else if opcode < 0x20 then Row1(opcode)
    else if opcode < 0x30 then Row2(opcode)
    else if opcode < 0x40 then Row3(opcode)
    else if opcode < 0x50 then Row4(opcode)
    else if opcode < 0x60 then Row5(opcode)
    else if opcode < 0x70 then Row6(opcode)
    else if opcode < 0x80 then Row7(opcode)
    else if opcode < 0x90 then Row8(opcode)
    else if opcode < 0xA0 then Row9(opcode)
    else if opcode < 0xB0 then RowA(opcode)
    else if opcode < 0xC0 then RowB(opcode)
    else if opcode < 0xD0 then RowC(opcode)
    else if opcode < 0xE0 then RowD(opcode)
    else if opcode < 0xF0 then RowE(opcode)
    else RowF(opcode)
  }

  /** Opcodes 0x00-0x0F. */
  function Row0(opcode: Byte): Instruction
  {
    match opcode
    case 0x00 => Default.(insType := Nop)
    case 0x01 => Default.(insType := Ld, addrMode := Rd16, reg1 := Bc)
    case 0x02 => Default.(insType := Ld, addrMode := MrR, reg1 := Bc, reg2 := A)
    case 0x03 => Default.(insType := Inc, addrMode := R, reg1 := Bc)
    case 0x04 => Default.(insType := Inc, addrMode := R, reg1 := B)
    case 0x05 => Default.(insType := Dec, addrMode := R, reg1 := B)
    case 0x06 => Default.(insType := Ld, addrMode := Rd8, reg1 := B)
    case 0x07 => Default.(insType := Rlca)
    case 0x08 => Default.(insType := Ld, addrMode := A16R, reg2 := Sp)
    case 0x09 => Default.(insType := Add, addrMode := Rr, reg1 := Hl, reg2 := Bc)
    case 0x0A => Default.(insType := Ld, addrMode := RmR, reg1 := A, reg2 := Bc)
    case 0x0B => Default.(insType := Dec, addrMode := R, reg1 := Bc)
    case 0x0C => Default.(insType := Inc, addrMode := R, reg1 := RegisterType.C)
    case 0x0D => Default.(insType := Dec, addrMode := R, reg1 := RegisterType.C)
    case 0x0E => Default.(insType := Ld, addrMode := Rd8, reg1 := RegisterType.C)
    case 0x0F => Default.(insType := Rrca)
    case _ => Default.(insType := Undefined)
  }

  /** Opcodes 0x10-0x1F. */
  function Row1(opcode: Byte): Instruction
  {
    match opcode
    case 0x10 => Default.(insType := Stop)
    case 0x11 => Default.(insType := Ld, addrMode := Rd16, reg1 := De)
    case 0x12 => Default.(insType := Ld, addrMode := MrR, reg1 := De, reg2 := A)
    case 0x13 => Default.(insType := Inc, addrMode := R, reg1 := De)
    case 0x14 => Default.(insType := Inc, addrMode := R, reg1 := D)
    case 0x15 => Default.(insType := Dec, addrMode := R, reg1 := D)
    case 0x16 => Default.(insType := Ld, addrMode := Rd8, reg1 := D)
    case 0x17 => Default.(insType := Rla)
    case 0x18 => Default.(insType := Jr, addrMode := D8)
    case 0x19 => Default.(insType := Add, addrMode := Rr, reg1 := Hl, reg2 := De)
    case 0x1A => Default.(insType := Ld, addrMode := RmR, reg1 := A, reg2 := De)
    case 0x1B => Default.(insType := Dec, addrMode := R, reg1 := De)
    case 0x1C => Default.(insType := Inc, addrMode := R, reg1 := E)
    case 0x1D => Default.(insType := Dec, addrMode := R, reg1 := E)
    case 0x1E => Default.(insType := Ld, addrMode := Rd8, reg1 := E)
    case 0x1F => Default.(insType := Rra)
    case _ => Default.(insType := Undefined)
  }

  /** Opcodes 0x20-0x2F. */
  function Row2(opcode: Byte): Instruction
  {
    match opcode
    case 0x20 => Default.(insType := Jr, addrMode := D8, condType := Nz)
    case 0x21 => Default.(insType := Ld, addrMode := Rd16, reg1 := Hl)
    case 0x22 => Default.(insType := Ld, addrMode := HliR, reg1 := Hl, reg2 := A)
    case 0x23 => Default.(insType := Inc, addrMode := R, reg1 := Hl)
    case 0x24 => Default.(insType := Inc, addrMode := R, reg1 := H)
    case 0x25 => Default.(insType := Dec, addrMode := R, reg1 := H)
    case 0x26 => Default.(insType := Ld, addrMode := Rd8, reg1 := H)
    case 0x27 => Default.(insType := Daa)
    case 0x28 => Default.(insType := Jr, addrMode := D8, condType := Z)
    case 0x29 => Default.(insType := Add, addrMode := Rr, reg1 := Hl, reg2 := Hl)
    case 0x2A => Default.(insType := Ld, addrMode := Rhli, reg1 := A, reg2 := Hl)
    case 0x2B => Default.(insType := Dec, addrMode := R, reg1 := Hl)
    case 0x2C => Default.(insType := Inc, addrMode := R, reg1 := L)
    case 0x2D => Default.(insType := Dec, addrMode := R, reg1 := L)
    case 0x2E => Default.(insType := Ld, addrMode := Rd8, reg1 := L)
    case 0x2F => Default.(insType := Cpl)
    case _ => Default.(insType := Undefined)
  }

  /** Opcodes 0x30-0x3F. */
  function Row3(opcode: Byte): Instruction
  {
    match opcode
    case 0x30 => Default.(insType := Jr, addrMode := D8, condType := Nc)
    case 0x31 => Default.(insType := Ld, addrMode := Rd16, reg1 := Sp)
    case 0x32 => Default.(insType := Ld, addrMode := HldR, reg1 := Hl, reg2 := A)
    case 0x33 => Default.(insType := Inc, addrMode := R, reg1 := Sp)
    case 0x34 => Default.(insType := Inc, addrMode := Mr, reg1 := Hl)
    case 0x35 => Default.(insType := Dec, addrMode := Mr, reg1 := Hl)
    case 0x36 => Default.(insType := Ld, addrMode := MrD8, reg1 := Hl)
    case 0x37 => Default.(insType := Scf)
    case 0x38 => Default.(insType := Jr, addrMode := D8, condType := ConditionType.C)
    case 0x39 => Default.(insType := Add, addrMode := Rr, reg1 := Hl, reg2 := Sp)
    case 0x3A => Default.(insType := Ld, addrMode := Rhld, reg1 := A, reg2 := Hl)
    case 0x3B => Default.(insType := Dec, addrMode := R, reg1 := Sp)
    case 0x3C => Default.(insType := Inc, addrMode := R, reg1 := A)
    case 0x3D => Default.(insType := Dec, addrMode := R, reg1 := A)
    case 0x3E => Default.(insType := Ld, addrMode := Rd8, reg1 := A)
    case 0x3F => Default.(insType := Ccf)
    case _ => Default.(insType := Undefined)
  }

  /** Opcodes 0x40-0x4F. */
  function Row4(opcode: Byte): Instruction
  {
    match opcode
    case 0x40 => Default.(insType := Ld, addrMode := Rr, reg1 := B, reg2 := B)
    case 0x41 => Default.(insType := Ld, addrMode := Rr, reg1 := B, reg2 := RegisterType.C)
    case 0x42 => Default.(insType := Ld, addrMode := Rr, reg1 := B, reg2 := D)
    case 0x43 => Default.(insType := Ld, addrMode := Rr, reg1 := B, reg2 := E)
    case 0x44 => Default.(insType := Ld, addrMode := Rr, reg1 := B, reg2 := H)
    case 0x45 => Default.(insType := Ld, addrMode := Rr, reg1 := B, reg2 := L)
    case 0x46 => Default.(insType := Ld, addrMode := RmR, reg1 := B, reg2 := Hl)
    case 0x47 => Default.(insType := Ld, addrMode := Rr, reg1 := B, reg2 := A)
    case 0x48 => Default.(insType := Ld, addrMode := Rr, reg1 := RegisterType.C, reg2 := B)
    case 0x49 => Default.(insType := Ld, addrMode := Rr, reg1 := RegisterType.C, reg2 := RegisterType.C)
    case 0x4A => Default.(insType := Ld, addrMode := Rr, reg1 := RegisterType.C, reg2 := D)
    case 0x4B => Default.(insType := Ld, addrMode := Rr, reg1 := RegisterType.C, reg2 := E)
    case 0x4C => Default.(insType := Ld, addrMode := Rr, reg1 := RegisterType.C, reg2 := H)
    case 0x4D => Default.(insType := Ld, addrMode := Rr, reg1 := RegisterType.C, reg2 := L)
    case 0x4E => Default.(insType := Ld, addrMode := RmR, reg1 := RegisterType.C, reg2 := Hl)
    case 0x4F => Default.(insType := Ld, addrMode := Rr, reg1 := RegisterType.C, reg2 := A)
    case _ => Default.(insType := Undefined)
  }

  /** Opcodes 0x50-0x5F. */
  function Row5(opcode: Byte): Instruction
  {
    match opcode
    case 0x50 => Default.(insType := Ld, addrMode := Rr, reg1 := D, reg2 := B)
    case 0x51 => Default.(insType := Ld, addrMode := Rr, reg1 := D, reg2 := RegisterType.C)
    case 0x52 => Default.(insType := Ld, addrMode := Rr, reg1 := D, reg2 := D)
    case 0x53 => Default.(insType := Ld, addrMode := Rr, reg1 := D, reg2 := E)
    case 0x54 => Default.(insType := Ld, addrMode := Rr, reg1 := D, reg2 := H)
    case 0x55 => Default.(insType := Ld, addrMode := Rr, reg1 := D, reg2 := L)
    case 0x56 => Default.(insType := Ld, addrMode := RmR, reg1 := D, reg2 := Hl)
    case 0x57 => Default.(insType := Ld, addrMode := Rr, reg1 := D, reg2 := A)
    case 0x58 => Default.(insType := Ld, addrMode := Rr, reg1 := E, reg2 := B)
    case 0x59 => Default.(insType := Ld, addrMode := Rr, reg1 := E, reg2 := RegisterType.C)
    case 0x5A => Default.(insType := Ld, addrMode := Rr, reg1 := E, reg2 := D)
    case 0x5B => Default.(insType := Ld, addrMode := Rr, reg1 := E, reg2 := E)
    case 0x5C => Default.(insType := Ld, addrMode := Rr, reg1 := E, reg2 := H)
    case 0x5D => Default.(insType := Ld, addrMode := Rr, reg1 := E, reg2 := L)
    case 0x5E => Default.(insType := Ld, addrMode := RmR, reg1 := E, reg2 := Hl)
    case 0x5F => Default.(insType := Ld, addrMode := Rr, reg1 := E, reg2 := A)
    case _ => Default.(insType := Undefined)
  }

  /** Opcodes 0x60-0x6F. */
  function Row6(opcode: Byte): Instruction
  {
    match opcode
    case 0x60 => Default.(insType := Ld, addrMode := Rr, reg1 := H, reg2 := B)
    case 0x61 => Default.(insType := Ld, addrMode := Rr, reg1 := H, reg2 := RegisterType.C)
    case 0x62 => Default.(insType := Ld, addrMode := Rr, reg1 := H, reg2 := D)
    case 0x63 => Default.(insType := Ld, addrMode := Rr, reg1 := H, reg2 := E)
    case 0x64 => Default.(insType := Ld, addrMode := Rr, reg1 := H, reg2 := H)
    case 0x65 => Default.(insType := Ld, addrMode := Rr, reg1 := H, reg2 := L)
    case 0x66 => Default.(insType := Ld, addrMode := RmR, reg1 := H, reg2 := Hl)
    case 0x67 => Default.(insType := Ld, addrMode := Rr, reg1 := H, reg2 := A)
    case 0x68 => Default.(insType := Ld, addrMode := Rr, reg1 := L, reg2 := B)
    case 0x69 => Default.(insType := Ld, addrMode := Rr, reg1 := L, reg2 := RegisterType.C)
    case 0x6A => Default.(insType := Ld, addrMode := Rr, reg1 := L, reg2 := D)
    case 0x6B => Default.(insType := Ld, addrMode := Rr, reg1 := L, reg2 := E)
    case 0x6C => Default.(insType := Ld, addrMode := Rr, reg1 := L, reg2 := H)
    case 0x6D => Default.(insType := Ld, addrMode := Rr, reg1 := L, reg2 := L)
    case 0x6E => Default.(insType := Ld, addrMode := RmR, reg1 := L, reg2 := Hl)
    case 0x6F => Default.(insType := Ld, addrMode := Rr, reg1 := L, reg2 := A)
    case _ => Default.(insType := Undefined)
  }

  /** Opcodes 0x70-0x7F. */
  function Row7(opcode: Byte): Instruction
  {
    match opcode
    case 0x70 => Default.(insType := Ld, addrMode := MrR, reg1 := Hl, reg2 := B)
    case 0x71 => Default.(insType := Ld, addrMode := MrR, reg1 := Hl, reg2 := RegisterType.C)
    case 0x72 => Default.(insType := Ld, addrMode := MrR, reg1 := Hl, reg2 := D)
    case 0x73 => Default.(insType := Ld, addrMode := MrR, reg1 := Hl, reg2 := E)
    case 0x74 => Default.(insType := Ld, addrMode := MrR, reg1 := Hl, reg2 := H)
    case 0x75 => Default.(insType := Ld, addrMode := MrR, reg1 := Hl, reg2 := L)
    case 0x76 => Default.(insType := Halt)
    case 0x77 => Default.(insType := Ld, addrMode := MrR, reg1 := Hl, reg2 := A)
    case 0x78 => Default.(insType := Ld, addrMode := Rr, reg1 := A, reg2 := B)
    case 0x79 => Default.(insType := Ld, addrMode := Rr, reg1 := A, reg2 := RegisterType.C)
    case 0x7A => Default.(insType := Ld, addrMode := Rr, reg1 := A, reg2 := D)
    case 0x7B => Default.(insType := Ld, addrMode := Rr, reg1 := A, reg2 := E)
    case 0x7C => Default.(insType := Ld, addrMode := Rr, reg1 := A, reg2 := H)
    case 0x7D => Default.(insType := Ld, addrMode := Rr, reg1 := A, reg2 := L)
    case 0x7E => Default.(insType := Ld, addrMode := RmR, reg1 := A, reg2 := Hl)
    case 0x7F => Default.(insType := Ld, addrMode := Rr, reg1 := A, reg2 := A)
    case _ => Default.(insType := Undefined)
  }

  /** Opcodes 0x80-0x8F. */
  function Row8(opcode: Byte): Instruction
  {
    match opcode
    case 0x80 => Default.(insType := Add, addrMode := Rr, reg1 := A, reg2 := B)
    case 0x81 => Default.(insType := Add, addrMode := Rr, reg1 := A, reg2 := RegisterType.C)
    case 0x82 => Default.(insType := Add, addrMode := Rr, reg1 := A, reg2 := D)
    case 0x83 => Default.(insType := Add, addrMode := Rr, reg1 := A, reg2 := E)
    case 0x84 => Default.(insType := Add, addrMode := Rr, reg1 := A, reg2 := H)
    case 0x85 => Default.(insType := Add, addrMode := Rr, reg1 := A, reg2 := L)
    case 0x86 => Default.(insType := Add, addrMode := RmR, reg1 := A, reg2 := Hl)
    case 0x87 => Default.(insType := Add, addrMode := Rr, reg1 := A, reg2 := A)
    case 0x88 => Default.(insType := Adc, addrMode := Rr, reg1 := A, reg2 := B)
    case 0x89 => Default.(insType := Adc, addrMode := Rr, reg1 := A, reg2 := RegisterType.C)
    case 0x8A => Default.(insType := Adc, addrMode := Rr, reg1 := A, reg2 := D)
    case 0x8B => Default.(insType := Adc, addrMode := Rr, reg1 := A, reg2 := E)
    case 0x8C => Default.(insType := Adc, addrMode := Rr, reg1 := A, reg2 := H)
    case 0x8D => Default.(insType := Adc, addrMode := Rr, reg1 := A, reg2 := L)
    case 0x8E => Default.(insType := Adc, addrMode := RmR, reg1 := A, reg2 := Hl)
    case 0x8F => Default.(insType := Adc, addrMode := Rr, reg1 := A, reg2 := A)
    case _ => Default.(insType := Undefined)
  }

  /** Opcodes 0x90-0x9F. */
  function Row9(opcode: Byte): Instruction
  {
    match opcode
    case 0x90 => Default.(insType := Sub, addrMode := Rr, reg1 := A, reg2 := B)
    case 0x91 => Default.(insType := Sub, addrMode := Rr, reg1 := A, reg2 := RegisterType.C)
    case 0x92 => Default.(insType := Sub, addrMode := Rr, reg1 := A, reg2 := D)
    case 0x93 => Default.(insType := Sub, addrMode := Rr, reg1 := A, reg2 := E)
    case 0x94 => Default.(insType := Sub, addrMode := Rr, reg1 := A, reg2 := H)
    case 0x95 => Default.(insType := Sub, addrMode := Rr, reg1 := A, reg2 := L)
    case 0x96 => Default.(insType := Sub, addrMode := RmR, reg1 := A, reg2 := Hl)
    case 0x97 => Default.(insType := Sub, addrMode := Rr, reg1 := A, reg2 := A)
    case 0x98 => Default.(insType := Sbc, addrMode := Rr, reg1 := A, reg2 := B)
    case 0x99 => Default.(insType := Sbc, addrMode := Rr, reg1 := A, reg2 := RegisterType.C)
    case 0x9A => Default.(insType := Sbc, addrMode := Rr, reg1 := A, reg2 := D)
    case 0x9B => Default.(insType := Sbc, addrMode := Rr, reg1 := A, reg2 := E)
    case 0x9C => Default.(insType := Sbc, addrMode := Rr, reg1 := A, reg2 := H)
    case 0x9D => Default.(insType := Sbc, addrMode := Rr, reg1 := A, reg2 := L)
    case 0x9E => Default.(insType := Sbc, addrMode := RmR, reg1 := A, reg2 := Hl)
    case 0x9F => Default.(insType := Sbc, addrMode := Rr, reg1 := A, reg2 := A)
    case _ => Default.(insType := Undefined)
  }

  /** Opcodes 0xA0-0xAF. */
  function RowA(opcode: Byte): Instruction
  {
    match opcode
    case 0xA0 => Default.(insType := And, addrMode := Rr, reg1 := A, reg2 := B)
    case 0xA1 => Default.(insType := And, addrMode := Rr, reg1 := A, reg2 := RegisterType.C)
    case 0xA2 => Default.(insType := And, addrMode := Rr, reg1 := A, reg2 := D)
    case 0xA3 => Default.(insType := And, addrMode := Rr, reg1 := A, reg2 := E)
    case 0xA4 => Default.(insType := And, addrMode := Rr, reg1 := A, reg2 := H)
    case 0xA5 => Default.(insType := And, addrMode := Rr, reg1 := A, reg2 := L)
    case 0xA6 => Default.(insType := And, addrMode := RmR, reg1 := A, reg2 := Hl)
    case 0xA7 => Default.(insType := And, addrMode := Rr, reg1 := A, reg2 := A)
    case 0xA8 => Default.(insType := Xor, addrMode := Rr, reg1 := A, reg2 := B)
    case 0xA9 => Default.(insType := Xor, addrMode := Rr, reg1 := A, reg2 := RegisterType.C)
    case 0xAA => Default.(insType := Xor, addrMode := Rr, reg1 := A, reg2 := D)
    case 0xAB => Default.(insType := Xor, addrMode := Rr, reg1 := A, reg2 := E)
    case 0xAC => Default.(insType := Xor, addrMode := Rr, reg1 := A, reg2 := H)
    case 0xAD => Default.(insType := Xor, addrMode := Rr, reg1 := A, reg2 := L)
    case 0xAE => Default.(insType := Xor, addrMode := RmR, reg1 := A, reg2 := Hl)
    case 0xAF => Default.(insType := Xor, addrMode := R, reg1 := A, reg2 := A)
    case _ => Default.(insType := Undefined)
  }

  /** Opcodes 0xB0-0xBF. */
  function RowB(opcode: Byte): Instruction
  {
    match opcode
    case 0xB0 => Default.(insType := Or, addrMode := Rr, reg1 := A, reg2 := B)
    case 0xB1 => Default.(insType := Or, addrMode := Rr, reg1 := A, reg2 := RegisterType.C)
    case 0xB2 => Default.(insType := Or, addrMode := Rr, reg1 := A, reg2 := D)
    case 0xB3 => Default.(insType := Or, addrMode := Rr, reg1 := A, reg2 := E)
    case 0xB4 => Default.(insType := Or, addrMode := Rr, reg1 := A, reg2 := H)
    case 0xB5 => Default.(insType := Or, addrMode := Rr, reg1 := A, reg2 := L)
    case 0xB6 => Default.(insType := Or, addrMode := RmR, reg1 := A, reg2 := Hl)
    case 0xB7 => Default.(insType := Or, addrMode := Rr, reg1 := A, reg2 := A)
    case 0xB8 => Default.(insType := Cp, addrMode := Rr, reg1 := A, reg2 := B)
    case 0xB9 => Default.(insType := Cp, addrMode := Rr, reg1 := A, reg2 := RegisterType.C)
    case 0xBA => Default.(insType := Cp, addrMode := Rr, reg1 := A, reg2 := D)
    case 0xBB => Default.(insType := Cp, addrMode := Rr, reg1 := A, reg2 := E)
    case 0xBC => Default.(insType := Cp, addrMode := Rr, reg1 := A, reg2 := H)
    case 0xBD => Default.(insType := Cp, addrMode := Rr, reg1 := A, reg2 := L)
    case 0xBE => Default.(insType := Cp, addrMode := RmR, reg1 := A, reg2 := Hl)
    case 0xBF => Default.(insType := Cp, addrMode := R, reg1 := A, reg2 := A)
    case _ => Default.(insType := Undefined)
  }

  /** Opcodes 0xC0-0xCF. */
  function RowC(opcode: Byte): Instruction
  {
    match opcode
    case 0xC0 => Default.(insType := Ret, condType := Nz)
    case 0xC1 => Default.(insType := Pop, addrMode := R, reg1 := Bc)
    case 0xC2 => Default.(insType := Jp, addrMode := D16, condType := Nz)
    case 0xC3 => Default.(insType := Jp, addrMode := D16)
    case 0xC4 => Default.(insType := Call, addrMode := D16, condType := Nz)
    case 0xC5 => Default.(insType := Push, addrMode := R, reg1 := Bc)
    case 0xC6 => Default.(insType := Add, addrMode := Rd8, reg1 := A)
    case 0xC7 => Default.(insType := Rst, param := Some(0x00))
    case 0xC8 => Default.(insType := Ret, condType := Z)
    case 0xC9 => Default.(insType := Ret)
    case 0xCA => Default.(insType := Jp, addrMode := D16, condType := Z)
    case 0xCB => Default.(insType := Cb, addrMode := D8)
    case 0xCC => Default.(insType := Call, addrMode := D16, condType := Z)
    case 0xCD => Default.(insType := Call, addrMode := D16)
    case 0xCE => Default.(insType := Adc, addrMode := Rd8, reg1 := A)
    case 0xCF => Default.(insType := Rst, param := Some(0x08))
    case _ => Default.(insType := Undefined)
  }

  /** Opcodes 0xD0-0xDF. */
  function RowD(opcode: Byte): Instruction
  {
    match opcode
    case 0xD0 => Default.(insType := Ret, condType := Nc)
    case 0xD1 => Default.(insType := Pop, addrMode := R, reg1 := De)
    case 0xD2 => Default.(insType := Jp, addrMode := D16, condType := Nc)
    case 0xD4 => Default.(insType := Call, addrMode := D16, condType := Nc)
    case 0xD5 => Default.(insType := Push, addrMode := R, reg1 := De)
    case 0xD6 => Default.(insType := Sub, addrMode := Rd8, reg1 := A)
    case 0xD7 => Default.(insType := Rst, param := Some(0x10))
    case 0xD8 => Default.(insType := Ret, condType := ConditionType.C)
    case 0xD9 => Default.(insType := Reti)
    case 0xDA => Default.(insType := Jp, addrMode := D16, condType := ConditionType.C)
    case 0xDC => Default.(insType := Call, addrMode := D16, condType := ConditionType.C)
    case 0xDE => Default.(insType := Sbc, addrMode := Rd8, reg1 := A)
    case 0xDF => Default.(insType := Rst, param := Some(0x18))
    case _ => Default.(insType := Undefined)
  }

  /** Opcodes 0xE0-0xEF. */
  function RowE(opcode: Byte): Instruction
  {
    match opcode
    case 0xE0 => Default.(insType := Ldh, addrMode := A8R, reg2 := A)
    case 0xE1 => Default.(insType := Pop, addrMode := R, reg1 := Hl)
    case 0xE2 => Default.(insType := Ld, addrMode := MrR, reg1 := RegisterType.C, reg2 := A)
    case 0xE5 => Default.(insType := Push, addrMode := R, reg1 := Hl)
    case 0xE6 => Default.(insType := And, addrMode := Rd8, reg1 := A)
    case 0xE7 => Default.(insType := Rst, param := Some(0x20))
    case 0xE8 => Default.(insType := Add, addrMode := Rd8, reg1 := Sp)
    case 0xE9 => Default.(insType := Jp, addrMode := R, reg1 := Hl)
    case 0xEA => Default.(insType := Ld, addrMode := A16R, reg2 := A)
    case 0xEE => Default.(insType := Xor, addrMode := Rd8, reg1 := A)
    case 0xEF => Default.(insType := Rst, param := Some(0x28))
    case _ => Default.(insType := Undefined)
  }

  /** Opcodes 0xF0-0xFF. */
  function RowF(opcode: Byte): Instruction
  {
    match opcode
    case 0xF0 => Default.(insType := Ldh, addrMode := Ra8, reg1 := A)
    case 0xF1 => Default.(insType := Pop, addrMode := R, reg1 := Af)
    case 0xF2 => Default.(insType := Ld, addrMode := RmR, reg1 := A, reg2 := RegisterType.C)
    case 0xF3 => Default.(insType := Di)
    case 0xF5 => Default.(insType := Push, addrMode := R, reg1 := Af)
    case 0xF6 => Default.(insType := Or, addrMode := Rd8, reg1 := A)
    case 0xF7 => Default.(insType := Rst, param := Some(0x30))
    case 0xF8 => Default.(insType := Ld, addrMode := HlSpR, reg1 := Hl, reg2 := Sp)
    case 0xF9 => Default.(insType := Ld, addrMode := Rr, reg1 := Sp, reg2 := Hl)
    case 0xFA => Default.(insType := Ld, addrMode := Ra16, reg1 := A)
    case 0xFB => Default.(insType := Ei)
    case 0xFE => Default.(insType := Cp, addrMode := Rd8, reg1 := A)
    case 0xFF => Default.(insType := Rst, param := Some(0x38))
    case _ => Default.(insType := Undefined)
  }

  // ----- Reference definitions of the table's regular structure -----

  /** The register named by a three-bit operand field, in the order B, C, D, E, H, L,
      (HL), A; index 6 is the memory operand (HL), given as `Hl`. */
  function OperandRegister(index: int): RegisterType
    requires 0 <= index < 8
  {
    [B, RegisterType.C, D, E, H, L, Hl, A][index]
  }

  /** The ALU operation selected by bits 5..3 of an opcode in 0x80-0xBF or of an
      immediate ALU opcode. */
  function AluKind(index: int): InstructionType
    requires 0 <= index < 8
  {
    [Add, Adc, Sub, Sbc, And, Xor, Or, Cp][index]
  }

  /** The branch condition selected by bits 4..3 of a conditional opcode. */
  function ConditionAt(index: int): ConditionType
    requires 0 <= index < 4
  {
    [Nz, Z, Nc, ConditionType.C][index]
  }

  /** The eleven opcodes the table does not list. */
  const UndefinedOpcodes: set<Byte> :=
    {0xD3, 0xDB, 0xDD, 0xE3, 0xE4, 0xEB, 0xEC, 0xED, 0xF4, 0xFC, 0xFD}

  /** The eight RST opcodes: bits 7..6 and 2..0 are all set. */
  const RstOpcodes: set<Byte> := {0xC7, 0xCF, 0xD7, 0xDF, 0xE7, 0xEF, 0xF7, 0xFF}

  /** The sixteen conditional JR, RET, JP and CALL opcodes. */
  const ConditionalOpcodes: set<Byte> :=
    {0x20, 0x28, 0x30, 0x38, 0xC0, 0xC8, 0xD0, 0xD8,
     0xC2, 0xCA, 0xD2, 0xDA, 0xC4, 0xCC, 0xD4, 0xDC}

  // ----- Properties of the table -----

  /** Decoding is total, and exactly the eleven unlisted opcodes are `Undefined`. */
  lemma UndefinedExactly(opcode: Byte)
    ensures InstructionByOpcode(opcode).insType == Undefined <==> opcode in UndefinedOpcodes
  {
    TableFactsHold(opcode);
  }

  /** Only the RST opcodes carry a parameter, and only they are RST. */
  lemma ParamOnlyOnRst(opcode: Byte)
    ensures InstructionByOpcode(opcode).param.Some? <==> opcode in RstOpcodes
    ensures InstructionByOpcode(opcode).insType == Rst <==> opcode in RstOpcodes
  {
    TableFactsHold(opcode);
  }

  /** An RST opcode's parameter is its bits 5..3 in place (`opcode & 0x38`). */
  lemma RstParamIsVector(opcode: Byte)
    requires opcode in RstOpcodes
    ensures InstructionByOpcode(opcode).param == Some(opcode / 8 % 8 * 8)
  {
  }

  /** The RST opcodes are exactly those with bits 7..6 and 2..0 set (`opcode & 0xC7 == 0xC7`). */
  lemma RstOpcodesPattern(opcode: Byte)
    ensures opcode in RstOpcodes <==> opcode / 64 == 3 && opcode % 8 == 7
  {
  }

  /** 0x40-0x7F: LD between the operand registers, except 0x76, HALT. */
  predicate LoadEntry(opcode: Byte, ins: Instruction)
    requires 0x40 <= opcode < 0x80
  {
    if opcode == 0x76 then ins == Default.(insType := Halt)
    else
      && ins.insType == Ld
      && ins.condType == ConditionType.None
      && ins.param == Option.None
      && (if 0x70 <= opcode < 0x78 then
            ins.addrMode == MrR && ins.reg1 == Hl && ins.reg2 == OperandRegister(opcode % 8)
          else if opcode % 8 == 6 then
            ins.addrMode == RmR && ins.reg1 == OperandRegister(opcode / 8 % 8) && ins.reg2 == Hl
          else
            ins.addrMode == Rr && ins.reg1 == OperandRegister(opcode / 8 % 8)
            && ins.reg2 == OperandRegister(opcode % 8))
  }

  /** Every opcode of 0x40-0x7F decodes as `LoadEntry` describes. */
  lemma LoadBlock(opcode: Byte)
    requires 0x40 <= opcode < 0x80
    ensures LoadEntry(opcode, InstructionByOpcode(opcode))
  {
    if opcode < 0x48 { LoadHalf40(opcode); }
    else if opcode < 0x50 { LoadHalf48(opcode); }
    else if opcode < 0x58 { LoadHalf50(opcode); }
    else if opcode < 0x60 { LoadHalf58(opcode); }
    else if opcode < 0x68 { LoadHalf60(opcode); }
    else if opcode < 0x70 { LoadHalf68(opcode); }
    else if opcode < 0x78 { LoadHalf70(opcode); }
    else { LoadHalf78(opcode); }
  }

  lemma LoadHalf40(opcode: Byte)
    requires 0x40 <= opcode < 0x48
    ensures LoadEntry(opcode, Row4(opcode))
  {
  }

  lemma LoadHalf48(opcode: Byte)
    requires 0x48 <= opcode < 0x50
    ensures LoadEntry(opcode, Row4(opcode))
  {
  }

  lemma LoadHalf50(opcode: Byte)
    requires 0x50 <= opcode < 0x58
    ensures LoadEntry(opcode, Row5(opcode))
  {
  }

  lemma LoadHalf58(opcode: Byte)
    requires 0x58 <= opcode < 0x60
    ensures LoadEntry(opcode, Row5(opcode))
  {
  }

  lemma LoadHalf60(opcode: Byte)
    requires 0x60 <= opcode < 0x68
    ensures LoadEntry(opcode, Row6(opcode))
  {
  }

  lemma LoadHalf68(opcode: Byte)
    requires 0x68 <= opcode < 0x70
    ensures LoadEntry(opcode, Row6(opcode))
  {
  }

  lemma LoadHalf70(opcode: Byte)
    requires 0x70 <= opcode < 0x78
    ensures LoadEntry(opcode, Row7(opcode))
  {
  }

  lemma LoadHalf78(opcode: Byte)
    requires 0x78 <= opcode < 0x80
    ensures LoadEntry(opcode, Row7(opcode))
  {
  }

  /** 0x80-0xBF: the eight ALU operations on A, operand in bits 2..0. XOR A (0xAF) and
      CP A (0xBF) are entered with mode R rather than Rr. */
  predicate AluEntry(opcode: Byte, ins: Instruction)
    requires 0x80 <= opcode < 0xC0
  {
    && ins.insType == AluKind(opcode / 8 % 8)
    && ins.reg1 == A
    && ins.condType == ConditionType.None
    && ins.param == Option.None
    && (if opcode % 8 == 6 then ins.addrMode == RmR && ins.reg2 == Hl
        else if opcode == 0xAF || opcode == 0xBF then ins.addrMode == R && ins.reg2 == A
        else ins.addrMode == Rr && ins.reg2 == OperandRegister(opcode % 8))
  }

  /** Every opcode of 0x80-0xBF decodes as `AluEntry` describes. */
  lemma AluBlock(opcode: Byte)
    requires 0x80 <= opcode < 0xC0
    ensures AluEntry(opcode, InstructionByOpcode(opcode))
  {
    if opcode < 0x88 { AluHalf80(opcode); }
    else if opcode < 0x90 { AluHalf88(opcode); }
    else if opcode < 0x98 { AluHalf90(opcode); }
    else if opcode < 0xA0 { AluHalf98(opcode); }
    else if opcode < 0xA8 { AluHalfA0(opcode); }
    else if opcode < 0xB0 { AluHalfA8(opcode); }
    else if opcode < 0xB8 { AluHalfB0(opcode); }
    else { AluHalfB8(opcode); }
  }

  lemma AluHalf80(opcode: Byte)
    requires 0x80 <= opcode < 0x88
    ensures AluEntry(opcode, Row8(opcode))
  {
  }

  lemma AluHalf88(opcode: Byte)
    requires 0x88 <= opcode < 0x90
    ensures AluEntry(opcode, Row8(opcode))
  {
  }

  lemma AluHalf90(opcode: Byte)
    requires 0x90 <= opcode < 0x98
    ensures AluEntry(opcode, Row9(opcode))
  {
  }

  lemma AluHalf98(opcode: Byte)
    requires 0x98 <= opcode < 0xA0
    ensures AluEntry(opcode, Row9(opcode))
  {
  }

  lemma AluHalfA0(opcode: Byte)
    requires 0xA0 <= opcode < 0xA8
    ensures AluEntry(opcode, RowA(opcode))
  {
  }

  lemma AluHalfA8(opcode: Byte)
    requires 0xA8 <= opcode < 0xB0
    ensures AluEntry(opcode, RowA(opcode))
  {
  }

  lemma AluHalfB0(opcode: Byte)
    requires 0xB0 <= opcode < 0xB8
    ensures AluEntry(opcode, RowB(opcode))
  {
  }

  lemma AluHalfB8(opcode: Byte)
    requires 0xB8 <= opcode < 0xC0
    ensures AluEntry(opcode, RowB(opcode))
  {
  }

  /** Only the sixteen conditional jumps, calls and returns carry a condition. */
  lemma ConditionOnlyOnBranches(opcode: Byte)
    ensures InstructionByOpcode(opcode).condType != ConditionType.None <==> opcode in ConditionalOpcodes
  {
    TableFactsHold(opcode);
  }

  /** A conditional opcode takes NZ, Z, NC or C from bits 4..3; its kind and mode
      follow its column: JR d8, RET, JP d16 or CALL d16. */
  lemma ConditionalBranches(opcode: Byte)
    requires opcode in ConditionalOpcodes
    ensures var ins := InstructionByOpcode(opcode);
      && ins.condType == ConditionAt(opcode / 8 % 4)
      && ins.reg1 == RegisterType.None && ins.reg2 == RegisterType.None
      && (if opcode < 0x40 then ins.insType == Jr && ins.addrMode == D8
          else if opcode % 8 == 0 then ins.insType == Ret && ins.addrMode == Imp
          else if opcode % 8 == 2 then ins.insType == Jp && ins.addrMode == D16
          else ins.insType == Call && ins.addrMode == D16)
  {
  }

  /** The unconditional forms of JR, RET, JP and CALL carry no condition. */
  lemma UnconditionalBranches()
    ensures InstructionByOpcode(0x18) == Default.(insType := Jr, addrMode := D8)
    ensures InstructionByOpcode(0xC9) == Default.(insType := Ret)
    ensures InstructionByOpcode(0xC3) == Default.(insType := Jp, addrMode := D16)
    ensures InstructionByOpcode(0xCD) == Default.(insType := Call, addrMode := D16)
  {
  }

  /** The immediate ALU opcodes 0xC6, 0xCE, ..., 0xFE: mode Rd8 on A, in the order of
      the 0x80 block. */
  lemma ImmediateAlu(opcode: Byte)
    requires 0xC0 <= opcode && opcode % 8 == 6
    ensures InstructionByOpcode(opcode) == Default.(insType := AluKind(opcode / 8 % 8), addrMode := Rd8, reg1 := A)
  {
  }

  /** 0xCB is the prefix entry: the byte after it is read as an 8-bit immediate. */
  lemma PrefixEntry()
    ensures InstructionByOpcode(0xCB) == Default.(insType := Cb, addrMode := D8)
  {
  }

  /** Every register that `fetch_data` reads for the entry's addressing mode is named
      (reading `RegisterType::NONE` panics), and an implied-mode entry names none. */
  predicate OperandsDefined(ins: Instruction)
  {
    && (ins.addrMode in {R, MrR, HliR, HldR, MrD8, Mr} ==> ins.reg1 != RegisterType.None)
    && (ins.addrMode in {Rr, MrR, RmR, Rhli, Rhld, HliR, HldR, A16R, D16R} ==> ins.reg2 != RegisterType.None)
    && (ins.addrMode == Imp ==> ins.reg1 == RegisterType.None && ins.reg2 == RegisterType.None)
  }

  /** Every entry of the table satisfies `OperandsDefined`. */
  lemma DecodedOperandsDefined(opcode: Byte)
    ensures OperandsDefined(InstructionByOpcode(opcode))
  {
    TableFactsHold(opcode);
  }

  /** The per-entry facts above, gathered so that they are checked one row of the
      table at a time. */
  predicate TableFacts(opcode: Byte, ins: Instruction)
  {
    && (ins.insType == Undefined <==> opcode in UndefinedOpcodes)
    && (ins.param.Some? <==> opcode in RstOpcodes)
    && (ins.insType == Rst <==> opcode in RstOpcodes)
    && (ins.condType != ConditionType.None <==> opcode in ConditionalOpcodes)
    && OperandsDefined(ins)
  }

  lemma TableFactsHold(opcode: Byte)
    ensures TableFacts(opcode, InstructionByOpcode(opcode))
  {
    if opcode < 0x10 { TableFactsRow0(opcode); }
    else if opcode < 0x20 { TableFactsRow1(opcode); }
    else if opcode < 0x30 { TableFactsRow2(opcode); }
    else if opcode < 0x40 { TableFactsRow3(opcode); }
    else if opcode < 0x50 { TableFactsRow4(opcode); }
    else if opcode < 0x60 { TableFactsRow5(opcode); }
    else if opcode < 0x70 { TableFactsRow6(opcode); }
    else if opcode < 0x80 { TableFactsRow7(opcode); }
    else if opcode < 0x90 { TableFactsRow8(opcode); }
    else if opcode < 0xA0 { TableFactsRow9(opcode); }
    else if opcode < 0xB0 { TableFactsRowA(opcode); }
    else if opcode < 0xC0 { TableFactsRowB(opcode); }
    else if opcode < 0xD0 { TableFactsRowC(opcode); }
    else if opcode < 0xE0 { TableFactsRowD(opcode); }
    else if opcode < 0xF0 { TableFactsRowE(opcode); }
    else { TableFactsRowF(opcode); }
  }

  lemma TableFactsRow0(opcode: Byte)
    requires 0x00 <= opcode < 0x10
    ensures TableFacts(opcode, Row0(opcode))
  {
  }

  lemma TableFactsRow1(opcode: Byte)
    requires 0x10 <= opcode < 0x20
    ensures TableFacts(opcode, Row1(opcode))
  {
  }

  lemma TableFactsRow2(opcode: Byte)
    requires 0x20 <= opcode < 0x30
    ensures TableFacts(opcode, Row2(opcode))
  {
  }

  lemma TableFactsRow3(opcode: Byte)
    requires 0x30 <= opcode < 0x40
    ensures TableFacts(opcode, Row3(opcode))
  {
  }

  lemma TableFactsRow4(opcode: Byte)
    requires 0x40 <= opcode < 0x50
    ensures TableFacts(opcode, Row4(opcode))
  {
  }

  lemma TableFactsRow5(opcode: Byte)
    requires 0x50 <= opcode < 0x60
    ensures TableFacts(opcode, Row5(opcode))
  {
  }

  lemma TableFactsRow6(opcode: Byte)
    requires 0x60 <= opcode < 0x70
    ensures TableFacts(opcode, Row6(opcode))
  {
  }

  lemma TableFactsRow7(opcode: Byte)
    requires 0x70 <= opcode < 0x80
    ensures TableFacts(opcode, Row7(opcode))
  {
  }

  lemma TableFactsRow8(opcode: Byte)
    requires 0x80 <= opcode < 0x90
    ensures TableFacts(opcode, Row8(opcode))
  {
  }

  lemma TableFactsRow9(opcode: Byte)
    requires 0x90 <= opcode < 0xA0
    ensures TableFacts(opcode, Row9(opcode))
  {
  }

  lemma TableFactsRowA(opcode: Byte)
    requires 0xA0 <= opcode < 0xB0
    ensures TableFacts(opcode, RowA(opcode))
  {
  }

  lemma TableFactsRowB(opcode: Byte)
    requires 0xB0 <= opcode < 0xC0
    ensures TableFacts(opcode, RowB(opcode))
  {
  }

  lemma TableFactsRowC(opcode: Byte)
    requires 0xC0 <= opcode < 0xD0
    ensures TableFacts(opcode, RowC(opcode))
  {
  }

  lemma TableFactsRowD(opcode: Byte)
    requires 0xD0 <= opcode < 0xE0
    ensures TableFacts(opcode, RowD(opcode))
  {
  }

  lemma TableFactsRowE(opcode: Byte)
    requires 0xE0 <= opcode < 0xF0
    ensures TableFacts(opcode, RowE(opcode))
  {
  }

  lemma TableFactsRowF(opcode: Byte)
    requires 0xF0 <= opcode < 0x100
    ensures TableFacts(opcode, RowF(opcode))
  {
  }
}
