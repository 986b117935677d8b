/** The four opcode tables and the CPU-dependent merge of
    pyasm6502/assembler.py:93-120. A table maps a mnemonic to its addressing
    modes, and each mode to an opcode and the instruction's size in bytes. */
module Opcodes {
  import opened Strings

  datatype Mode = IMP | ACC | IMM | ZP | ZPX | ZPY | ABS | ABSX | ABSY | IND | INDX | INDY | REL | ZP_IND | ABS_X_IND | ZP_REL

  datatype Op = Op(opcode: int, size: int)

  /** The byte count every table entry of a mode carries. */
  function SizeOf(mode: Mode): int
  {
    match mode
    case IMP | ACC => 1
    case ABS | ABSX | ABSY | IND | ABS_X_IND | ZP_REL => 3
    case _ => 2
  }

  /** The documented 6502 instruction set (pyasm6502/package/constants.py:2-96). */
  function Table6502(mnemonic: string): map<Mode, Op>
  {
    match mnemonic
    case "LDA" => map[IMM := Op(0xA9, 2), ZP := Op(0xA5, 2), ZPX := Op(0xB5, 2), ABS := Op(0xAD, 3), ABSX := Op(0xBD, 3), ABSY := Op(0xB9, 3), INDX := Op(0xA1, 2), INDY := Op(0xB1, 2)]
    case "LDX" => map[IMM := Op(0xA2, 2), ZP := Op(0xA6, 2), ZPY := Op(0xB6, 2), ABS := Op(0xAE, 3), ABSY := Op(0xBE, 3)]
    case "LDY" => map[IMM := Op(0xA0, 2), ZP := Op(0xA4, 2), ZPX := Op(0xB4, 2), ABS := Op(0xAC, 3), ABSX := Op(0xBC, 3)]
    case "STA" => map[ZP := Op(0x85, 2), ZPX := Op(0x95, 2), ABS := Op(0x8D, 3), ABSX := Op(0x9D, 3), ABSY := Op(0x99, 3), INDX := Op(0x81, 2), INDY := Op(0x91, 2)]
    case "STX" => map[ZP := Op(0x86, 2), ZPY := Op(0x96, 2), ABS := Op(0x8E, 3)]
    case "STY" => map[ZP := Op(0x84, 2), ZPX := Op(0x94, 2), ABS := Op(0x8C, 3)]
    case "TAX" => map[IMP := Op(0xAA, 1)]
    case "TAY" => map[IMP := Op(0xA8, 1)]
    case "TXA" => map[IMP := Op(0x8A, 1)]
    case "TYA" => map[IMP := Op(0x98, 1)]
    case "TSX" => map[IMP := Op(0xBA, 1)]
    case "TXS" => map[IMP := Op(0x9A, 1)]
    case "PHA" => map[IMP := Op(0x48, 1)]
    case "PLA" => map[IMP := Op(0x68, 1)]
    case "PHP" => map[IMP := Op(0x08, 1)]
    case "PLP" => map[IMP := Op(0x28, 1)]
    case "ADC" => map[IMM := Op(0x69, 2), ZP := Op(0x65, 2), ZPX := Op(0x75, 2), ABS := Op(0x6D, 3), ABSX := Op(0x7D, 3), ABSY := Op(0x79, 3), INDX := Op(0x61, 2), INDY := Op(0x71, 2)]
    case "SBC" => map[IMM := Op(0xE9, 2), ZP := Op(0xE5, 2), ZPX := Op(0xF5, 2), ABS := Op(0xED, 3), ABSX := Op(0xFD, 3), ABSY := Op(0xF9, 3), INDX := Op(0xE1, 2), INDY := Op(0xF1, 2)]
    case "INC" => map[ZP := Op(0xE6, 2), ZPX := Op(0xF6, 2), ABS := Op(0xEE, 3), ABSX := Op(0xFE, 3)]
    case "DEC" => map[ZP := Op(0xC6, 2), ZPX := Op(0xD6, 2), ABS := Op(0xCE, 3), ABSX := Op(0xDE, 3)]
    case "INX" => map[IMP := Op(0xE8, 1)]
    case "INY" => map[IMP := Op(0xC8, 1)]
    case "DEX" => map[IMP := Op(0xCA, 1)]
    case "DEY" => map[IMP := Op(0x88, 1)]
    case "AND" => map[IMM := Op(0x29, 2), ZP := Op(0x25, 2), ZPX := Op(0x35, 2), ABS := Op(0x2D, 3), ABSX := Op(0x3D, 3), ABSY := Op(0x39, 3), INDX := Op(0x21, 2), INDY := Op(0x31, 2)]
    case "ORA" => map[IMM := Op(0x09, 2), ZP := Op(0x05, 2), ZPX := Op(0x15, 2), ABS := Op(0x0D, 3), ABSX := Op(0x1D, 3), ABSY := Op(0x19, 3), INDX := Op(0x01, 2), INDY := Op(0x11, 2)]
    case "EOR" => map[IMM := Op(0x49, 2), ZP := Op(0x45, 2), ZPX := Op(0x55, 2), ABS := Op(0x4D, 3), ABSX := Op(0x5D, 3), ABSY := Op(0x59, 3), INDX := Op(0x41, 2), INDY := Op(0x51, 2)]
    case "ASL" => map[ACC := Op(0x0A, 1), ZP := Op(0x06, 2), ZPX := Op(0x16, 2), ABS := Op(0x0E, 3), ABSX := Op(0x1E, 3)]
    case "LSR" => map[ACC := Op(0x4A, 1), ZP := Op(0x46, 2), ZPX := Op(0x56, 2), ABS := Op(0x4E, 3), ABSX := Op(0x5E, 3)]
    case "ROL" => map[ACC := Op(0x2A, 1), ZP := Op(0x26, 2), ZPX := Op(0x36, 2), ABS := Op(0x2E, 3), ABSX := Op(0x3E, 3)]
    case "ROR" => map[ACC := Op(0x6A, 1), ZP := Op(0x66, 2), ZPX := Op(0x76, 2), ABS := Op(0x6E, 3), ABSX := Op(0x7E, 3)]
    case "CMP" => map[IMM := Op(0xC9, 2), ZP := Op(0xC5, 2), ZPX := Op(0xD5, 2), ABS := Op(0xCD, 3), ABSX := Op(0xDD, 3), ABSY := Op(0xD9, 3), INDX := Op(0xC1, 2), INDY := Op(0xD1, 2)]
    case "CPX" => map[IMM := Op(0xE0, 2), ZP := Op(0xE4, 2), ABS := Op(0xEC, 3)]
    case "CPY" => map[IMM := Op(0xC0, 2), ZP := Op(0xC4, 2), ABS := Op(0xCC, 3)]
    case "BCC" => map[REL := Op(0x90, 2)]
    case "BCS" => map[REL := Op(0xB0, 2)]
    case "BEQ" => map[REL := Op(0xF0, 2)]
    case "BMI" => map[REL := Op(0x30, 2)]
    case "BNE" => map[REL := Op(0xD0, 2)]
    case "BPL" => map[REL := Op(0x10, 2)]
    case "BVC" => map[REL := Op(0x50, 2)]
    case "BVS" => map[REL := Op(0x70, 2)]
    case "JMP" => map[ABS := Op(0x4C, 3), IND := Op(0x6C, 3)]
    case "JSR" => map[ABS := Op(0x20, 3)]
    case "RTS" => map[IMP := Op(0x60, 1)]
    case "BRK" => map[IMP := Op(0x00, 1)]
    case "RTI" => map[IMP := Op(0x40, 1)]
    case "CLC" => map[IMP := Op(0x18, 1)]
    case "SEC" => map[IMP := Op(0x38, 1)]
    case "CLI" => map[IMP := Op(0x58, 1)]
    case "SEI" => map[IMP := Op(0x78, 1)]
    case "CLV" => map[IMP := Op(0xB8, 1)]
    case "CLD" => map[IMP := Op(0xD8, 1)]
    case "SED" => map[IMP := Op(0xF8, 1)]
    case "BIT" => map[ZP := Op(0x24, 2), ABS := Op(0x2C, 3)]
    case "NOP" => map[IMP := Op(0xEA, 1)]
    case _ => map[]
  }

  /** The 65C02 CMOS extensions (pyasm6502/package/constants.py:99-122). */
  function Table65C02(mnemonic: string): map<Mode, Op>
  {
    match mnemonic
    case "STZ" => map[ZP := Op(0x64, 2), ZPX := Op(0x74, 2), ABS := Op(0x9C, 3), ABSX := Op(0x9E, 3)]
    case "BRA" => map[REL := Op(0x80, 2)]
    case "PHX" => map[IMP := Op(0xDA, 1)]
    case "PLX" => map[IMP := Op(0xFA, 1)]
    case "PHY" => map[IMP := Op(0x5A, 1)]
    case "PLY" => map[IMP := Op(0x7A, 1)]
    case "TSB" => map[ZP := Op(0x04, 2), ABS := Op(0x0C, 3)]
    case "TRB" => map[ZP := Op(0x14, 2), ABS := Op(0x1C, 3)]
    case "ORA" => map[ZP_IND := Op(0x12, 2)]
    case "AND" => map[ZP_IND := Op(0x32, 2)]
    case "EOR" => map[ZP_IND := Op(0x52, 2)]
    case "ADC" => map[ZP_IND := Op(0x72, 2)]
    case "STA" => map[ZP_IND := Op(0x92, 2)]
    case "LDA" => map[ZP_IND := Op(0xB2, 2)]
    case "CMP" => map[ZP_IND := Op(0xD2, 2)]
    case "SBC" => map[ZP_IND := Op(0xF2, 2)]
    case "BIT" => map[IMM := Op(0x89, 2), ZPX := Op(0x34, 2), ABSX := Op(0x3C, 3)]
    case "JMP" => map[ABS_X_IND := Op(0x7C, 3)]
    case "INC" => map[IMP := Op(0x1A, 1)]
    case "DEC" => map[IMP := Op(0x3A, 1)]
    case _ => map[]
  }

  /** The undocumented NMOS 6502 opcodes (pyasm6502/package/constants.py:125-183). */
  function TableNmos(mnemonic: string): map<Mode, Op>
  {
    match mnemonic
    case "SLO" => map[ZP := Op(0x07, 2), ZPX := Op(0x17, 2), ABS := Op(0x0F, 3), ABSX := Op(0x1F, 3), ABSY := Op(0x1B, 3), INDX := Op(0x03, 2), INDY := Op(0x13, 2)]
    case "RLA" => map[ZP := Op(0x27, 2), ZPX := Op(0x37, 2), ABS := Op(0x2F, 3), ABSX := Op(0x3F, 3), ABSY := Op(0x3B, 3), INDX := Op(0x23, 2), INDY := Op(0x33, 2)]
    case "SRE" => map[ZP := Op(0x47, 2), ZPX := Op(0x57, 2), ABS := Op(0x4F, 3), ABSX := Op(0x5F, 3), ABSY := Op(0x5B, 3), INDX := Op(0x43, 2), INDY := Op(0x53, 2)]
    case "RRA" => map[ZP := Op(0x67, 2), ZPX := Op(0x77, 2), ABS := Op(0x6F, 3), ABSX := Op(0x7F, 3), ABSY := Op(0x7B, 3), INDX := Op(0x63, 2), INDY := Op(0x73, 2)]
    case "SAX" => map[ZP := Op(0x87, 2), ZPY := Op(0x97, 2), ABS := Op(0x8F, 3), INDX := Op(0x83, 2)]
    case "LAX" => map[ZP := Op(0xA7, 2), ZPY := Op(0xB7, 2), ABS := Op(0xAF, 3), ABSY := Op(0xBF, 3), INDX := Op(0xA3, 2), INDY := Op(0xB3, 2)]
    case "DCP" => map[ZP := Op(0xC7, 2), ZPX := Op(0xD7, 2), ABS := Op(0xCF, 3), ABSX := Op(0xDF, 3), ABSY := Op(0xDB, 3), INDX := Op(0xC3, 2), INDY := Op(0xD3, 2)]
    case "ISC" => map[ZP := Op(0xE7, 2), ZPX := Op(0xF7, 2), ABS := Op(0xEF, 3), ABSX := Op(0xFF, 3), ABSY := Op(0xFB, 3), INDX := Op(0xE3, 2), INDY := Op(0xF3, 2)]
    case "ANC" => map[IMM := Op(0x0B, 2)]
    case "ALR" => map[IMM := Op(0x4B, 2)]
    case "ASR" => map[IMM := Op(0x4B, 2)]
    case "ARR" => map[IMM := Op(0x6B, 2)]
    case "SBX" => map[IMM := Op(0xCB, 2)]
    case "LXA" => map[IMM := Op(0xAB, 2)]
    case "ANE" => map[IMM := Op(0x8B, 2)]
    case "SHA" => map[ABSY := Op(0x9F, 3), INDY := Op(0x93, 2)]
    case "SHX" => map[ABSY := Op(0x9E, 3)]
    case "SHY" => map[ABSX := Op(0x9C, 3)]
    case "TAS" => map[ABSY := Op(0x9B, 3)]
    case "LAS" => map[ABSY := Op(0xBB, 3)]
    case "JAM" => map[IMP := Op(0x02, 1)]
    case "NOP" => map[IMM := Op(0x80, 2), ZP := Op(0x04, 2), ZPX := Op(0x14, 2), ABS := Op(0x0C, 3), ABSX := Op(0x1C, 3)]
    case "DOP" => map[IMM := Op(0x80, 2), ZP := Op(0x04, 2), ZPX := Op(0x14, 2)]
    case "TOP" => map[ABS := Op(0x0C, 3), ABSX := Op(0x1C, 3)]
    case _ => map[]
  }

  /** The W65C02S extensions (pyasm6502/package/constants.py:186-211). */
  function TableW65C02S(mnemonic: string): map<Mode, Op>
  {
    match mnemonic
    case "STZ" => map[ZP := Op(0x64, 2), ZPX := Op(0x74, 2), ABS := Op(0x9C, 3), ABSX := Op(0x9E, 3)]
    case "BRA" => map[REL := Op(0x80, 2)]
    case "PHX" => map[IMP := Op(0xDA, 1)]
    case "PLX" => map[IMP := Op(0xFA, 1)]
    case "PHY" => map[IMP := Op(0x5A, 1)]
    case "PLY" => map[IMP := Op(0x7A, 1)]
    case "TSB" => map[ZP := Op(0x04, 2), ABS := Op(0x0C, 3)]
    case "TRB" => map[ZP := Op(0x14, 2), ABS := Op(0x1C, 3)]
    case "BBR0" => map[ZP_REL := Op(0x0F, 3)]
    case "BBR1" => map[ZP_REL := Op(0x1F, 3)]
    case "BBR2" => map[ZP_REL := Op(0x2F, 3)]
    case "BBR3" => map[ZP_REL := Op(0x3F, 3)]
    case "BBR4" => map[ZP_REL := Op(0x4F, 3)]
    case "BBR5" => map[ZP_REL := Op(0x5F, 3)]
    case "BBR6" => map[ZP_REL := Op(0x6F, 3)]
    case "BBR7" => map[ZP_REL := Op(0x7F, 3)]
    case "BBS0" => map[ZP_REL := Op(0x8F, 3)]
    case "BBS1" => map[ZP_REL := Op(0x9F, 3)]
    case "BBS2" => map[ZP_REL := Op(0xAF, 3)]
    case "BBS3" => map[ZP_REL := Op(0xBF, 3)]
    case "BBS4" => map[ZP_REL := Op(0xCF, 3)]
    case "BBS5" => map[ZP_REL := Op(0xDF, 3)]
    case "BBS6" => map[ZP_REL := Op(0xEF, 3)]
    case "BBS7" => map[ZP_REL := Op(0xFF, 3)]
    case "RMB0" => map[ZP := Op(0x07, 2)]
    case "RMB1" => map[ZP := Op(0x17, 2)]
    case "RMB2" => map[ZP := Op(0x27, 2)]
    case "RMB3" => map[ZP := Op(0x37, 2)]
    case "RMB4" => map[ZP := Op(0x47, 2)]
    case "RMB5" => map[ZP := Op(0x57, 2)]
    case "RMB6" => map[ZP := Op(0x67, 2)]
    case "RMB7" => map[ZP := Op(0x77, 2)]
    case "SMB0" => map[ZP := Op(0x87, 2)]
    case "SMB1" => map[ZP := Op(0x97, 2)]
    case "SMB2" => map[ZP := Op(0xA7, 2)]
    case "SMB3" => map[ZP := Op(0xB7, 2)]
    case "SMB4" => map[ZP := Op(0xC7, 2)]
    case "SMB5" => map[ZP := Op(0xD7, 2)]
    case "SMB6" => map[ZP := Op(0xE7, 2)]
    case "SMB7" => map[ZP := Op(0xF7, 2)]
    case "STP" => map[IMP := Op(0xDB, 1)]
    case "WAI" => map[IMP := Op(0xCB, 1)]
    case _ => map[]
  }

  const Names6502: set<string> := {
    "LDA", "LDX", "LDY", "STA", "STX", "STY", "TAX", "TAY", "TXA", "TYA", "TSX", "TXS", "PHA",
    "PLA", "PHP", "PLP", "ADC", "SBC", "INC", "DEC", "INX", "INY", "DEX", "DEY", "AND", "ORA",
    "EOR", "ASL", "LSR", "ROL", "ROR", "CMP", "CPX", "CPY", "BCC", "BCS", "BEQ", "BMI", "BNE",
    "BPL", "BVC", "BVS", "JMP", "JSR", "RTS", "BRK", "RTI", "CLC", "SEC", "CLI", "SEI", "CLV",
    "CLD", "SED", "BIT", "NOP"
  }

  const Names65C02: set<string> := {
    "STZ", "BRA", "PHX", "PLX", "PHY", "PLY", "TSB", "TRB", "ORA", "AND", "EOR", "ADC", "STA",
    "LDA", "CMP", "SBC", "BIT", "JMP", "INC", "DEC"
  }

  const NamesNmos: set<string> := {
    "SLO", "RLA", "SRE", "RRA", "SAX", "LAX", "DCP", "ISC", "ANC", "ALR", "ASR", "ARR", "SBX",
    "LXA", "ANE", "SHA", "SHX", "SHY", "TAS", "LAS", "JAM", "NOP", "DOP", "TOP"
  }

  const NamesW65C02S: set<string> := {
    "STZ", "BRA", "PHX", "PLX", "PHY", "PLY", "TSB", "TRB", "BBR0", "BBR1", "BBR2", "BBR3",
    "BBR4", "BBR5", "BBR6", "BBR7", "BBS0", "BBS1", "BBS2", "BBS3", "BBS4", "BBS5", "BBS6",
    "BBS7", "RMB0", "RMB1", "RMB2", "RMB3", "RMB4", "RMB5", "RMB6", "RMB7", "SMB0", "SMB1",
    "SMB2", "SMB3", "SMB4", "SMB5", "SMB6", "SMB7", "STP", "WAI"
  }


  /** The CPU variants `_update_instructions` distinguishes. */
  datatype Cpu = Mos6502 | Cmos65C02 | Nmos6502 | W65C02S

  /** The variant selected by a `cpu_type` string, compared case-insensitively;
      every other name selects the plain 6502 table. */
  function CpuOf(cpuType: string): (cpu: Cpu)
    ensures cpu == W65C02S <==> Lower(cpuType) in {"w65c02s", "w65c02"}
    ensures cpu == Cmos65C02 <==> Lower(cpuType) == "65c02"
    ensures cpu == Nmos6502 <==> Lower(cpuType) == "nmos6502"
  {
    var name := Lower(cpuType);
    if name == "w65c02s" || name == "w65c02" then W65C02S
    else if name == "65c02" then Cmos65C02
    else if name == "nmos6502" then Nmos6502
    else Mos6502
  }

  /** The active instruction table: the base table with the extension tables
      merged in, mode by mode, in the order the source merges them. Map union
      `+` keeps a mnemonic's existing modes and lets the later table win on
      a shared mode, as `dict.update` does. */
  function Instructions(cpu: Cpu, mnemonic: string): map<Mode, Op>
  {
    match cpu
    case Mos6502 => Table6502(mnemonic)
    case Cmos65C02 => Table6502(mnemonic) + Table65C02(mnemonic)
    case Nmos6502 => Table6502(mnemonic) + TableNmos(mnemonic)
    case W65C02S => Table6502(mnemonic) + Table65C02(mnemonic) + TableW65C02S(mnemonic)
  }

  /** The mnemonics of the active table (the keys of `self.INSTRUCTIONS`). */
  function Mnemonics(cpu: Cpu): set<string>
  {
    match cpu
    case Mos6502 => Names6502
    case Cmos65C02 => Names6502 + Names65C02
    case Nmos6502 => Names6502 + NamesNmos
    case W65C02S => Names6502 + Names65C02 + NamesW65C02S
  }

  lemma Sizes6502(mnemonic: string, mode: Mode)
    requires mode in Table6502(mnemonic)
    ensures Table6502(mnemonic)[mode].size == SizeOf(mode)
  {
  }

  lemma Sizes65C02(mnemonic: string, mode: Mode)
    requires mode in Table65C02(mnemonic)
    ensures Table65C02(mnemonic)[mode].size == SizeOf(mode)
  {
  }

  lemma SizesNmos(mnemonic: string, mode: Mode)
    requires mode in TableNmos(mnemonic)
    ensures TableNmos(mnemonic)[mode].size == SizeOf(mode)
  {
  }

  lemma SizesW65C02S(mnemonic: string, mode: Mode)
    requires mode in TableW65C02S(mnemonic)
    ensures TableW65C02S(mnemonic)[mode].size == SizeOf(mode)
  {
  }

  /** Every entry's size is the one its mode fixes, in every merged table. */
  lemma TableSizes(cpu: Cpu, mnemonic: string, mode: Mode)
    requires mode in Instructions(cpu, mnemonic)
    ensures Instructions(cpu, mnemonic)[mode].size == SizeOf(mode)
  {
    if mode in TableW65C02S(mnemonic) && cpu == W65C02S {
      SizesW65C02S(mnemonic, mode);
    } else if mode in Table65C02(mnemonic) && (cpu == Cmos65C02 || cpu == W65C02S) {
      Sizes65C02(mnemonic, mode);
    } else if mode in TableNmos(mnemonic) && cpu == Nmos6502 {
      SizesNmos(mnemonic, mode);
    } else {
      Sizes6502(mnemonic, mode);
    }
  }

  /** A name outside the mnemonic list has no table entry. */
  lemma UnlistedHasNoModes(cpu: Cpu, mnemonic: string)
    requires mnemonic !in Mnemonics(cpu)
    ensures Instructions(cpu, mnemonic) == map[]
  {
    Unlisted6502(mnemonic);
    if cpu != Mos6502 {
      if cpu == Nmos6502 {
        UnlistedNmos(mnemonic);
      } else {
        Unlisted65C02(mnemonic);
        if cpu == W65C02S {
          UnlistedW65C02S(mnemonic);
        }
      }
    }
  }

  /** Each table has entries only for its own mnemonics. */
  lemma Unlisted6502(mnemonic: string)
    ensures mnemonic !in Names6502 ==> Table6502(mnemonic) == map[]
  {
  }

  lemma Unlisted65C02(mnemonic: string)
    ensures mnemonic !in Names65C02 ==> Table65C02(mnemonic) == map[]
  {
  }

  lemma UnlistedNmos(mnemonic: string)
    ensures mnemonic !in NamesNmos ==> TableNmos(mnemonic) == map[]
  {
  }

  lemma UnlistedW65C02S(mnemonic: string)
    ensures mnemonic !in NamesW65C02S ==> TableW65C02S(mnemonic) == map[]
  {
  }

  lemma DisjointFrom65C02(mnemonic: string)
    ensures forall mode :: mode in Table6502(mnemonic) ==> mode !in Table65C02(mnemonic)
  {
  }

  lemma DisjointFromNmos(mnemonic: string)
    ensures forall mode :: mode in Table6502(mnemonic) ==> mode !in TableNmos(mnemonic)
  {
    if mnemonic == "NOP" {
    } else if mnemonic in NamesNmos {
      NmosNamesAreNew(mnemonic);
    } else {
      UnlistedNmos(mnemonic);
    }
  }

  /** NOP is the only NMOS mnemonic the base table has too (checked in
      groups). */
  lemma NmosNamesAreNew(mnemonic: string)
    requires mnemonic in NamesNmos && mnemonic != "NOP"
    ensures Table6502(mnemonic) == map[]
  {
    if mnemonic in {"SLO", "RLA", "SRE", "RRA", "SAX", "LAX", "DCP", "ISC", "ANC", "ALR", "ASR", "ARR"} {
      NmosNamesAreNew0(mnemonic);
    } else {
      NmosNamesAreNew1(mnemonic);
    }
  }

  lemma NmosNamesAreNew0(mnemonic: string)
    requires mnemonic in {"SLO", "RLA", "SRE", "RRA", "SAX", "LAX", "DCP", "ISC", "ANC", "ALR", "ASR", "ARR"}
    ensures Table6502(mnemonic) == map[]
  {
  }

  lemma NmosNamesAreNew1(mnemonic: string)
    requires mnemonic in {"SBX", "LXA", "ANE", "SHA", "SHX", "SHY", "TAS", "LAS", "JAM", "DOP", "TOP"}
    ensures Table6502(mnemonic) == map[]
  {
  }

  /** No W65C02S mnemonic is a base mnemonic (checked in groups). */
  lemma W65C02SNamesAreNew0(mnemonic: string)
    requires mnemonic in {"STZ", "BRA", "PHX", "PLX", "PHY", "PLY", "TSB", "TRB", "STP", "WAI"}
    ensures Table6502(mnemonic) == map[]
  {
  }

  lemma W65C02SNamesAreNew1(mnemonic: string)
    requires mnemonic in {"BBR0", "BBR1", "BBR2", "BBR3", "BBR4", "BBR5", "BBR6", "BBR7"}
    ensures Table6502(mnemonic) == map[]
  {
  }

  lemma W65C02SNamesAreNew2(mnemonic: string)
    requires mnemonic in {"BBS0", "BBS1", "BBS2", "BBS3", "BBS4", "BBS5", "BBS6", "BBS7"}
    ensures Table6502(mnemonic) == map[]
  {
  }

  lemma W65C02SNamesAreNew3(mnemonic: string)
    requires mnemonic in {"RMB0", "RMB1", "RMB2", "RMB3", "RMB4", "RMB5", "RMB6", "RMB7"}
    ensures Table6502(mnemonic) == map[]
  {
  }

  lemma W65C02SNamesAreNew4(mnemonic: string)
    requires mnemonic in {"SMB0", "SMB1", "SMB2", "SMB3", "SMB4", "SMB5", "SMB6", "SMB7"}
    ensures Table6502(mnemonic) == map[]
  {
  }

  lemma DisjointFromW65C02S(mnemonic: string)
    ensures forall mode :: mode in Table6502(mnemonic) ==> mode !in TableW65C02S(mnemonic)
  {
    if mnemonic in NamesW65C02S {
      if mnemonic in {"STZ", "BRA", "PHX", "PLX", "PHY", "PLY", "TSB", "TRB", "STP", "WAI"} {
        W65C02SNamesAreNew0(mnemonic);
      } else if mnemonic in {"BBR0", "BBR1", "BBR2", "BBR3", "BBR4", "BBR5", "BBR6", "BBR7"} {
        W65C02SNamesAreNew1(mnemonic);
      } else if mnemonic in {"BBS0", "BBS1", "BBS2", "BBS3", "BBS4", "BBS5", "BBS6", "BBS7"} {
        W65C02SNamesAreNew2(mnemonic);
      } else if mnemonic in {"RMB0", "RMB1", "RMB2", "RMB3", "RMB4", "RMB5", "RMB6", "RMB7"} {
        W65C02SNamesAreNew3(mnemonic);
      } else {
        W65C02SNamesAreNew4(mnemonic);
      }
    } else {
      assert TableW65C02S(mnemonic) == map[];
    }
  }

  /** Merging only adds modes: every base entry survives unchanged. */
  lemma MergeKeepsBase(cpu: Cpu, mnemonic: string, mode: Mode)
    requires mode in Table6502(mnemonic)
    ensures mode in Instructions(cpu, mnemonic)
    ensures Instructions(cpu, mnemonic)[mode] == Table6502(mnemonic)[mode]
  {
    DisjointFrom65C02(mnemonic);
    DisjointFromNmos(mnemonic);
    DisjointFromW65C02S(mnemonic);
  }

  lemma ExtensionsHaveNoBranches(mnemonic: string)
    requires mnemonic in {"BCC", "BCS", "BEQ", "BMI", "BNE", "BPL", "BVC", "BVS"}
    ensures Table65C02(mnemonic) == TableNmos(mnemonic) == TableW65C02S(mnemonic) == map[]
  {
  }

  /** The conditional branches have a single relative entry, on every CPU. */
  lemma BranchesAreRelativeOnly(cpu: Cpu, mnemonic: string)
    requires mnemonic in {"BCC", "BCS", "BEQ", "BMI", "BNE", "BPL", "BVC", "BVS"}
    ensures Instructions(cpu, mnemonic).Keys == {REL}
  {
    ExtensionsHaveNoBranches(mnemonic);
  }

  /** BRA exists only on the CMOS parts, and only as a relative branch. */
  lemma BraIsRelativeOnly(cpu: Cpu)
    ensures cpu == Cmos65C02 || cpu == W65C02S ==> Instructions(cpu, "BRA") == map[REL := Op(0x80, 2)]
    ensures cpu == Mos6502 || cpu == Nmos6502 ==> Instructions(cpu, "BRA") == map[]
  {
  }

  function DigitChar(n: nat): char
    requires n < 10
  {
    ('0' as int + n) as char
  }

  /** The bit-branch and bit-set families are laid out with a stride of 0x10. */
  lemma BbrOpcodes(n: nat)
    requires n < 8
    ensures TableW65C02S("BBR" + [DigitChar(n)]) == map[ZP_REL := Op(0x0F + 0x10 * n, 3)]
  {
    var d := DigitChar(n);
    if n == 0 {
      assert "BBR" + [d] == "BBR0";
    } else if n == 1 {
      assert "BBR" + [d] == "BBR1";
    } else if n == 2 {
      assert "BBR" + [d] == "BBR2";
    } else if n == 3 {
      assert "BBR" + [d] == "BBR3";
    } else if n == 4 {
      assert "BBR" + [d] == "BBR4";
    } else if n == 5 {
      assert "BBR" + [d] == "BBR5";
    } else if n == 6 {
      assert "BBR" + [d] == "BBR6";
    } else {
      assert "BBR" + [d] == "BBR7";
    }
  }

  lemma BbsOpcodes(n: nat)
    requires n < 8
    ensures TableW65C02S("BBS" + [DigitChar(n)]) == map[ZP_REL := Op(0x8F + 0x10 * n, 3)]
  {
    var d := DigitChar(n);
    if n == 0 {
      assert "BBS" + [d] == "BBS0";
    } else if n == 1 {
      assert "BBS" + [d] == "BBS1";
    } else if n == 2 {
      assert "BBS" + [d] == "BBS2";
    } else if n == 3 {
      assert "BBS" + [d] == "BBS3";
    } else if n == 4 {
      assert "BBS" + [d] == "BBS4";
    } else if n == 5 {
      assert "BBS" + [d] == "BBS5";
    } else if n == 6 {
      assert "BBS" + [d] == "BBS6";
    } else {
      assert "BBS" + [d] == "BBS7";
    }
  }

  lemma RmbOpcodes(n: nat)
    requires n < 8
    ensures TableW65C02S("RMB" + [DigitChar(n)]) == map[ZP := Op(0x07 + 0x10 * n, 2)]
  {
    var d := DigitChar(n);
    if n == 0 {
      assert "RMB" + [d] == "RMB0";
    } else if n == 1 {
      assert "RMB" + [d] == "RMB1";
    } else if n == 2 {
      assert "RMB" + [d] == "RMB2";
    } else if n == 3 {
      assert "RMB" + [d] == "RMB3";
    } else if n == 4 {
      assert "RMB" + [d] == "RMB4";
    } else if n == 5 {
      assert "RMB" + [d] == "RMB5";
    } else if n == 6 {
      assert "RMB" + [d] == "RMB6";
    } else {
      assert "RMB" + [d] == "RMB7";
    }
  }

  lemma SmbOpcodes(n: nat)
    requires n < 8
    ensures TableW65C02S("SMB" + [DigitChar(n)]) == map[ZP := Op(0x87 + 0x10 * n, 2)]
  {
    var d := DigitChar(n);
    if n == 0 {
      assert "SMB" + [d] == "SMB0";
    } else if n == 1 {
      assert "SMB" + [d] == "SMB1";
    } else if n == 2 {
      assert "SMB" + [d] == "SMB2";
    } else if n == 3 {
      assert "SMB" + [d] == "SMB3";
    } else if n == 4 {
      assert "SMB" + [d] == "SMB4";
    } else if n == 5 {
      assert "SMB" + [d] == "SMB5";
    } else if n == 6 {
      assert "SMB" + [d] == "SMB6";
    } else {
      assert "SMB" + [d] == "SMB7";
    }
  }

  /** JMP: absolute and indirect in the base table; the CMOS parts add
      absolute-indexed-indirect. */
  lemma JmpModes(cpu: Cpu)
    ensures Table6502("JMP") == map[ABS := Op(0x4C, 3), IND := Op(0x6C, 3)]
    ensures cpu == Cmos65C02 || cpu == W65C02S ==>
      Instructions(cpu, "JMP") == map[ABS := Op(0x4C, 3), IND := Op(0x6C, 3), ABS_X_IND := Op(0x7C, 3)]
    ensures cpu == Mos6502 || cpu == Nmos6502 ==> ABS_X_IND !in Instructions(cpu, "JMP")
  {
  }

  /** The W65C02S table repeats part of the 65C02 table with the same
      opcodes, so merging it after the 65C02 table changes none of those. */
  lemma W65C02SRepeatsCmos(mnemonic: string)
    ensures forall mode :: mode in TableW65C02S(mnemonic) && mode in Table65C02(mnemonic) ==>
      TableW65C02S(mnemonic)[mode] == Table65C02(mnemonic)[mode]
    ensures mnemonic in Names65C02 ==> Table65C02(mnemonic) + TableW65C02S(mnemonic) == Table65C02(mnemonic)
  {
  }

  /** ALR and ASR are one opcode. */
  lemma AlrIsAsr()
    ensures TableNmos("ALR") == TableNmos("ASR") == map[IMM := Op(0x4B, 2)]
  {
  }

  /** DOP and TOP reuse undocumented NOP opcodes. */
  lemma DopTopAreNops()
    ensures TableNmos("DOP") == map[ZP := Op(0x04, 2), ZPX := Op(0x14, 2), IMM := Op(0x80, 2)]
    ensures TableNmos("TOP") == map[ABS := Op(0x0C, 3), ABSX := Op(0x1C, 3)]
    ensures forall mode :: mode in TableNmos("DOP") ==> TableNmos("NOP")[mode] == TableNmos("DOP")[mode]
    ensures forall mode :: mode in TableNmos("TOP") ==> TableNmos("NOP")[mode] == TableNmos("TOP")[mode]
  {
  }

  /** Merging the NMOS table keeps NOP's implied 0xEA. */
  lemma NmosNopKeepsImplied()
    ensures Instructions(Nmos6502, "NOP")[IMP] == Op(0xEA, 1)
  {
    MergeKeepsBase(Nmos6502, "NOP", IMP);
  }
}
