/** The emulator's enumerations. `RegisterType`, `ConditionType` and `InterruptType`
    follow their enum files; `AddressMode` and `InstructionType` list the variants
    the decode table, the operand resolver and the dispatch table use. The snapshots
    spell some variants differently (`Rd16` and `RD16`, `Ld` and `LD`); one spelling
    is used here. */
module Enums {

  datatype RegisterType = None | A | F | B | C | D | E | H | L | Af | Bc | De | Hl | Sp | Pc

  datatype ConditionType = None | Nz | Z | Nc | C

  /** The five interrupt sources, highest priority first. */
  datatype InterruptType = VBlank | LcdStat | Timer | Serial | Joypad

  /** The discriminant of each source in the enum file: 1, 2, 4, 8 and 16. */
  function Discriminant(t: InterruptType): (d: nat)
    ensures d in {1, 2, 4, 8, 16}
  {
    match t
    case VBlank => 1
    case LcdStat => 2
    case Timer => 4
    case Serial => 8
    case Joypad => 16
  }

  datatype AddressMode =
    | Imp | R | Rr | Rd8 | Rd16 | D8 | D16
    | MrR | RmR | Rhli | Rhld | HliR | HldR
    | Ra8 | A8R | HlSpR | A16R | D16R | MrD8 | Mr | Ra16

  datatype InstructionType =
    | None | Nop | Ld | Inc | Dec | Rlca | Add | Rrca | Stop | Rla | Jr | Rra
    | Daa | Cpl | Scf | Ccf | Halt | Adc | Sub | Sbc | And | Xor | Or | Cp
    | Pop | Jp | Push | Ret | Cb | Call | Reti | Ldh | Di | Ei | Rst | Undefined
}
