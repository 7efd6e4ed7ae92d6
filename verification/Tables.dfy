/** The code tables of x8b10b_tables.h.  Bits 5..0 of a 5b/6b entry are abcdei, bits 3..0 of a
    3b/4b entry are fghj, bit 6 says that the running disparity flips; 0xff is no code. */
module Tables {
  import opened Bits

  const NOTM: Byte := 0xff

  /** `b5b6_1`: 5b/6b codes at negative running disparity; control codes from index 32. */
  function B5B6Neg(i: nat): Byte {
    match i
    case 0 => 0xe7 case 1 => 0xdd case 2 => 0xed case 3 => 0x31
    case 4 => 0xf5 case 5 => 0x29 case 6 => 0x19 case 7 => 0xb8
    case 8 => 0xf9 case 9 => 0x25 case 10 => 0x15 case 11 => 0x34
    case 12 => 0x0d case 13 => 0x2c case 14 => 0x1c case 15 => 0xd7
    case 16 => 0xdb case 17 => 0x23 case 18 => 0x13 case 19 => 0x32
    case 20 => 0x0b case 21 => 0x2a case 22 => 0x1a case 23 => 0xfa
    case 24 => 0xf3 case 25 => 0x26 case 26 => 0x16 case 27 => 0xf6
    case 28 => 0x0e case 29 => 0xee case 30 => 0xde case 31 => 0xeb
    case 55 => 0xfa case 59 => 0xf6 case 60 => 0xcf case 61 => 0xee
    case 62 => 0xde
    case _ => NOTM
  }

  /** `b3b4_1`: 3b/4b codes at negative running disparity; 8 is D.x.A7, control codes from index 16. */
  function B3B4Neg(i: nat): Byte {
    match i
    case 0 => 0xcb case 1 => 0x09 case 2 => 0x05 case 3 => 0x8c
    case 4 => 0xcd case 5 => 0x0a case 6 => 0x06 case 7 => 0xce
    case 8 => 0xc7 case 16 => 0xcb case 17 => 0x86 case 18 => 0x8a
    case 19 => 0x8c case 20 => 0xcd case 21 => 0x85 case 22 => 0x89
    case 23 => 0xc7
    case _ => NOTM
  }

  /** `b5b6_2`: 5b/6b codes at positive running disparity. */
  function B5B6Pos(i: nat): Byte {
    match i
    case 0 => 0xd8 case 1 => 0xe2 case 2 => 0xd2 case 3 => 0x31
    case 4 => 0xca case 5 => 0x29 case 6 => 0x19 case 7 => 0x87
    case 8 => 0xc6 case 9 => 0x25 case 10 => 0x15 case 11 => 0x34
    case 12 => 0x0d case 13 => 0x2c case 14 => 0x1c case 15 => 0xe8
    case 16 => 0xe4 case 17 => 0x23 case 18 => 0x13 case 19 => 0x32
    case 20 => 0x0b case 21 => 0x2a case 22 => 0x1a case 23 => 0xc5
    case 24 => 0xcc case 25 => 0x26 case 26 => 0x16 case 27 => 0xc9
    case 28 => 0x0e case 29 => 0xd1 case 30 => 0xe1 case 31 => 0xd4
    case 55 => 0xc5 case 59 => 0xc9 case 60 => 0xf0 case 61 => 0xd1
    case 62 => 0xe1
    case _ => NOTM
  }

  /** `b3b4_2`: 3b/4b codes at positive running disparity. */
  function B3B4Pos(i: nat): Byte {
    match i
    case 0 => 0xc4 case 1 => 0x09 case 2 => 0x85 case 3 => 0x83
    case 4 => 0xc2 case 5 => 0x0a case 6 => 0x06 case 7 => 0xc1
    case 8 => 0xc8 case 16 => 0xc4 case 17 => 0x89 case 18 => 0x8a
    case 19 => 0x83 case 20 => 0xc2 case 21 => 0x8a case 22 => 0x86
    case 23 => 0xc8
    case _ => NOTM
  }
}
