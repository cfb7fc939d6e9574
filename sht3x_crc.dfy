/*
 * CRC-8 of the SHT3x humidity/temperature sensor (polynomial 0x31, initial
 * value 0xFF, most significant bit first, no final xor), in the two forms the
 * driver can be built with: a 256-entry lookup table and a bit-by-bit loop.
 */
module Sht3xCrc {

  /** Generator polynomial x^8 + x^5 + x^4 + 1, without its leading term. */
  const CRC8_POLYNOMIAL: bv8 := 0x31
  /** Register value before the first byte is processed. */
  const CRC8_INIT: bv8 := 0xFF

  /**
   * The driver's 256-entry lookup table, row by row as it is laid out in the
   * source: entry i sits in row i / 16, column i % 16.
   */
  const CRC8_TABLE: seq<seq<bv8>> := [
    [0x00, 0x31, 0x62, 0x53, 0xC4, 0xF5, 0xA6, 0x97, 0xB9, 0x88, 0xDB, 0xEA, 0x7D, 0x4C, 0x1F, 0x2E],
    [0x43, 0x72, 0x21, 0x10, 0x87, 0xB6, 0xE5, 0xD4, 0xFA, 0xCB, 0x98, 0xA9, 0x3E, 0x0F, 0x5C, 0x6D],
    [0x86, 0xB7, 0xE4, 0xD5, 0x42, 0x73, 0x20, 0x11, 0x3F, 0x0E, 0x5D, 0x6C, 0xFB, 0xCA, 0x99, 0xA8],
    [0xC5, 0xF4, 0xA7, 0x96, 0x01, 0x30, 0x63, 0x52, 0x7C, 0x4D, 0x1E, 0x2F, 0xB8, 0x89, 0xDA, 0xEB],
    [0x3D, 0x0C, 0x5F, 0x6E, 0xF9, 0xC8, 0x9B, 0xAA, 0x84, 0xB5, 0xE6, 0xD7, 0x40, 0x71, 0x22, 0x13],
    [0x7E, 0x4F, 0x1C, 0x2D, 0xBA, 0x8B, 0xD8, 0xE9, 0xC7, 0xF6, 0xA5, 0x94, 0x03, 0x32, 0x61, 0x50],
    [0xBB, 0x8A, 0xD9, 0xE8, 0x7F, 0x4E, 0x1D, 0x2C, 0x02, 0x33, 0x60, 0x51, 0xC6, 0xF7, 0xA4, 0x95],
    [0xF8, 0xC9, 0x9A, 0xAB, 0x3C, 0x0D, 0x5E, 0x6F, 0x41, 0x70, 0x23, 0x12, 0x85, 0xB4, 0xE7, 0xD6],
    [0x7A, 0x4B, 0x18, 0x29, 0xBE, 0x8F, 0xDC, 0xED, 0xC3, 0xF2, 0xA1, 0x90, 0x07, 0x36, 0x65, 0x54],
    [0x39, 0x08, 0x5B, 0x6A, 0xFD, 0xCC, 0x9F, 0xAE, 0x80, 0xB1, 0xE2, 0xD3, 0x44, 0x75, 0x26, 0x17],
    [0xFC, 0xCD, 0x9E, 0xAF, 0x38, 0x09, 0x5A, 0x6B, 0x45, 0x74, 0x27, 0x16, 0x81, 0xB0, 0xE3, 0xD2],
    [0xBF, 0x8E, 0xDD, 0xEC, 0x7B, 0x4A, 0x19, 0x28, 0x06, 0x37, 0x64, 0x55, 0xC2, 0xF3, 0xA0, 0x91],
    [0x47, 0x76, 0x25, 0x14, 0x83, 0xB2, 0xE1, 0xD0, 0xFE, 0xCF, 0x9C, 0xAD, 0x3A, 0x0B, 0x58, 0x69],
    [0x04, 0x35, 0x66, 0x57, 0xC0, 0xF1, 0xA2, 0x93, 0xBD, 0x8C, 0xDF, 0xEE, 0x79, 0x48, 0x1B, 0x2A],
    [0xC1, 0xF0, 0xA3, 0x92, 0x05, 0x34, 0x67, 0x56, 0x78, 0x49, 0x1A, 0x2B, 0xBC, 0x8D, 0xDE, 0xEF],
    [0x82, 0xB3, 0xE0, 0xD1, 0x46, 0x77, 0x24, 0x15, 0x3B, 0x0A, 0x59, 0x68, 0xFF, 0xCE, 0x9D, 0xAC]
  ]

  /** `_crc8_table[i]`. */
  function TableEntry(i: bv8): bv8 {
    CRC8_TABLE[(i >> 4) as int][(i & 0x0F) as int]
  }

  /** One iteration of the inner bit loop: shift left, xor the polynomial when the top bit fell out. */
  function ShiftBit(crc: bv8): bv8 {
    if crc & 0x80 != 0 then (crc << 1) ^ CRC8_POLYNOMIAL else crc << 1
  }

  /** `n` iterations of the bit loop. */
  function ShiftBits(crc: bv8, n: nat): bv8
    decreases n
  {
    if n == 0 then crc else ShiftBit(ShiftBits(crc, n - 1))
  }

  /** The whole bit loop for one byte: eight iterations. */
  function ShiftByte(crc: bv8): bv8 {
    ShiftBit(ShiftBit(ShiftBit(ShiftBit(ShiftBit(ShiftBit(ShiftBit(ShiftBit(crc))))))))
  }

  lemma EightShiftsAreShiftByte(crc: bv8)
    ensures ShiftBits(crc, 8) == ShiftByte(crc)
  {
  }

  /** Bitwise reference: the register after processing `data` starting from `crc`. */
  function CrcFrom(crc: bv8, data: seq<bv8>): bv8
    decreases |data|
  {
    if data == [] then crc else CrcFrom(ShiftByte(crc ^ data[0]), data[1..])
  }

  /** The CRC-8 of `data` as the sensor computes it. */
  function Crc8(data: seq<bv8>): bv8 {
    CrcFrom(CRC8_INIT, data)
  }

  /** Table-driven update: one lookup per byte. */
  function TableCrcFrom(crc: bv8, data: seq<bv8>): bv8
    decreases |data|
  {
    if data == [] then crc else TableCrcFrom(TableEntry(data[0] ^ crc), data[1..])
  }

  // The table is checked row by row: each row is the bit loop applied to the
  // sixteen indices it covers, and the entry of any index in that row follows.

  lemma TableRow0Values()
    ensures CRC8_TABLE[0] == [
      ShiftByte(0x00), ShiftByte(0x01), ShiftByte(0x02), ShiftByte(0x03),
      ShiftByte(0x04), ShiftByte(0x05), ShiftByte(0x06), ShiftByte(0x07),
      ShiftByte(0x08), ShiftByte(0x09), ShiftByte(0x0A), ShiftByte(0x0B),
      ShiftByte(0x0C), ShiftByte(0x0D), ShiftByte(0x0E), ShiftByte(0x0F)
    ]
  {
  }

  lemma TableRow0(i: bv8)
    requires i >> 4 == 0x0
    ensures TableEntry(i) == ShiftByte(i)
  {
    TableRow0Values();
    if i == 0x00 { }
    else if i == 0x01 { }
    else if i == 0x02 { }
    else if i == 0x03 { }
    else if i == 0x04 { }
    else if i == 0x05 { }
    else if i == 0x06 { }
    else if i == 0x07 { }
    else if i == 0x08 { }
    else if i == 0x09 { }
    else if i == 0x0A { }
    else if i == 0x0B { }
    else if i == 0x0C { }
    else if i == 0x0D { }
    else if i == 0x0E { }
    else { assert i == 0x0F; }
  }

  lemma TableRow1Values()
    ensures CRC8_TABLE[1] == [
      ShiftByte(0x10), ShiftByte(0x11), ShiftByte(0x12), ShiftByte(0x13),
      ShiftByte(0x14), ShiftByte(0x15), ShiftByte(0x16), ShiftByte(0x17),
      ShiftByte(0x18), ShiftByte(0x19), ShiftByte(0x1A), ShiftByte(0x1B),
      ShiftByte(0x1C), ShiftByte(0x1D), ShiftByte(0x1E), ShiftByte(0x1F)
    ]
  {
  }

  lemma TableRow1(i: bv8)
    requires i >> 4 == 0x1
    ensures TableEntry(i) == ShiftByte(i)
  {
    TableRow1Values();
    if i == 0x10 { }
    else if i == 0x11 { }
    else if i == 0x12 { }
    else if i == 0x13 { }
    else if i == 0x14 { }
    else if i == 0x15 { }
    else if i == 0x16 { }
    else if i == 0x17 { }
    else if i == 0x18 { }
    else if i == 0x19 { }
    else if i == 0x1A { }
    else if i == 0x1B { }
    else if i == 0x1C { }
    else if i == 0x1D { }
    else if i == 0x1E { }
    else { assert i == 0x1F; }
  }

  lemma TableRow2Values()
    ensures CRC8_TABLE[2] == [
      ShiftByte(0x20), ShiftByte(0x21), ShiftByte(0x22), ShiftByte(0x23),
      ShiftByte(0x24), ShiftByte(0x25), ShiftByte(0x26), ShiftByte(0x27),
      ShiftByte(0x28), ShiftByte(0x29), ShiftByte(0x2A), ShiftByte(0x2B),
      ShiftByte(0x2C), ShiftByte(0x2D), ShiftByte(0x2E), ShiftByte(0x2F)
    ]
  {
  }

  lemma TableRow2(i: bv8)
    requires i >> 4 == 0x2
    ensures TableEntry(i) == ShiftByte(i)
  {
    TableRow2Values();
    if i == 0x20 { }
    else if i == 0x21 { }
    else if i == 0x22 { }
    else if i == 0x23 { }
    else if i == 0x24 { }
    else if i == 0x25 { }
    else if i == 0x26 { }
    else if i == 0x27 { }
    else if i == 0x28 { }
    else if i == 0x29 { }
    else if i == 0x2A { }
    else if i == 0x2B { }
    else if i == 0x2C { }
    else if i == 0x2D { }
    else if i == 0x2E { }
    else { assert i == 0x2F; }
  }

  lemma TableRow3Values()
    ensures CRC8_TABLE[3] == [
      ShiftByte(0x30), ShiftByte(0x31), ShiftByte(0x32), ShiftByte(0x33),
      ShiftByte(0x34), ShiftByte(0x35), ShiftByte(0x36), ShiftByte(0x37),
      ShiftByte(0x38), ShiftByte(0x39), ShiftByte(0x3A), ShiftByte(0x3B),
      ShiftByte(0x3C), ShiftByte(0x3D), ShiftByte(0x3E), ShiftByte(0x3F)
    ]
  {
  }

  lemma TableRow3(i: bv8)
    requires i >> 4 == 0x3
    ensures TableEntry(i) == ShiftByte(i)
  {
    TableRow3Values();
    if i == 0x30 { }
    else if i == 0x31 { }
    else if i == 0x32 { }
    else if i == 0x33 { }
    else if i == 0x34 { }
    else if i == 0x35 { }
    else if i == 0x36 { }
    else if i == 0x37 { }
    else if i == 0x38 { }
    else if i == 0x39 { }
    else if i == 0x3A { }
    else if i == 0x3B { }
    else if i == 0x3C { }
    else if i == 0x3D { }
    else if i == 0x3E { }
    else { assert i == 0x3F; }
  }

  lemma TableRow4Values()
    ensures CRC8_TABLE[4] == [
      ShiftByte(0x40), ShiftByte(0x41), ShiftByte(0x42), ShiftByte(0x43),
      ShiftByte(0x44), ShiftByte(0x45), ShiftByte(0x46), ShiftByte(0x47),
      ShiftByte(0x48), ShiftByte(0x49), ShiftByte(0x4A), ShiftByte(0x4B),
      ShiftByte(0x4C), ShiftByte(0x4D), ShiftByte(0x4E), ShiftByte(0x4F)
    ]
  {
  }

  lemma TableRow4(i: bv8)
    requires i >> 4 == 0x4
    ensures TableEntry(i) == ShiftByte(i)
  {
    TableRow4Values();
    if i == 0x40 { }
    else if i == 0x41 { }
    else if i == 0x42 { }
    else if i == 0x43 { }
    else if i == 0x44 { }
    else if i == 0x45 { }
    else if i == 0x46 { }
    else if i == 0x47 { }
    else if i == 0x48 { }
    else if i == 0x49 { }
    else if i == 0x4A { }
    else if i == 0x4B { }
    else if i == 0x4C { }
    else if i == 0x4D { }
    else if i == 0x4E { }
    else { assert i == 0x4F; }
  }

  lemma TableRow5Values()
    ensures CRC8_TABLE[5] == [
      ShiftByte(0x50), ShiftByte(0x51), ShiftByte(0x52), ShiftByte(0x53),
      ShiftByte(0x54), ShiftByte(0x55), ShiftByte(0x56), ShiftByte(0x57),
      ShiftByte(0x58), ShiftByte(0x59), ShiftByte(0x5A), ShiftByte(0x5B),
      ShiftByte(0x5C), ShiftByte(0x5D), ShiftByte(0x5E), ShiftByte(0x5F)
    ]
  {
  }

  lemma TableRow5(i: bv8)
    requires i >> 4 == 0x5
    ensures TableEntry(i) == ShiftByte(i)
  {
    TableRow5Values();
    if i == 0x50 { }
    else if i == 0x51 { }
    else if i == 0x52 { }
    else if i == 0x53 { }
    else if i == 0x54 { }
    else if i == 0x55 { }
    else if i == 0x56 { }
    else if i == 0x57 { }
    else if i == 0x58 { }
    else if i == 0x59 { }
    else if i == 0x5A { }
    else if i == 0x5B { }
    else if i == 0x5C { }
    else if i == 0x5D { }
    else if i == 0x5E { }
    else { assert i == 0x5F; }
  }

  lemma TableRow6Values()
    ensures CRC8_TABLE[6] == [
      ShiftByte(0x60), ShiftByte(0x61), ShiftByte(0x62), ShiftByte(0x63),
      ShiftByte(0x64), ShiftByte(0x65), ShiftByte(0x66), ShiftByte(0x67),
      ShiftByte(0x68), ShiftByte(0x69), ShiftByte(0x6A), ShiftByte(0x6B),
      ShiftByte(0x6C), ShiftByte(0x6D), ShiftByte(0x6E), ShiftByte(0x6F)
    ]
  {
  }

  lemma TableRow6(i: bv8)
    requires i >> 4 == 0x6
    ensures TableEntry(i) == ShiftByte(i)
  {
    TableRow6Values();
    if i == 0x60 { }
    else if i == 0x61 { }
    else if i == 0x62 { }
    else if i == 0x63 { }
    else if i == 0x64 { }
    else if i == 0x65 { }
    else if i == 0x66 { }
    else if i == 0x67 { }
    else if i == 0x68 { }
    else if i == 0x69 { }
    else if i == 0x6A { }
    else if i == 0x6B { }
    else if i == 0x6C { }
    else if i == 0x6D { }
    else if i == 0x6E { }
    else { assert i == 0x6F; }
  }

  lemma TableRow7Values()
    ensures CRC8_TABLE[7] == [
      ShiftByte(0x70), ShiftByte(0x71), ShiftByte(0x72), ShiftByte(0x73),
      ShiftByte(0x74), ShiftByte(0x75), ShiftByte(0x76), ShiftByte(0x77),
      ShiftByte(0x78), ShiftByte(0x79), ShiftByte(0x7A), ShiftByte(0x7B),
      ShiftByte(0x7C), ShiftByte(0x7D), ShiftByte(0x7E), ShiftByte(0x7F)
    ]
  {
  }

  lemma TableRow7(i: bv8)
    requires i >> 4 == 0x7
    ensures TableEntry(i) == ShiftByte(i)
  {
    TableRow7Values();
    if i == 0x70 { }
    else if i == 0x71 { }
    else if i == 0x72 { }
    else if i == 0x73 { }
    else if i == 0x74 { }
    else if i == 0x75 { }
    else if i == 0x76 { }
    else if i == 0x77 { }
    else if i == 0x78 { }
    else if i == 0x79 { }
    else if i == 0x7A { }
    else if i == 0x7B { }
    else if i == 0x7C { }
    else if i == 0x7D { }
    else if i == 0x7E { }
    else { assert i == 0x7F; }
  }

  lemma TableRow8Values()
    ensures CRC8_TABLE[8] == [
      ShiftByte(0x80), ShiftByte(0x81), ShiftByte(0x82), ShiftByte(0x83),
      ShiftByte(0x84), ShiftByte(0x85), ShiftByte(0x86), ShiftByte(0x87),
      ShiftByte(0x88), ShiftByte(0x89), ShiftByte(0x8A), ShiftByte(0x8B),
      ShiftByte(0x8C), ShiftByte(0x8D), ShiftByte(0x8E), ShiftByte(0x8F)
    ]
  {
  }

  lemma TableRow8(i: bv8)
    requires i >> 4 == 0x8
    ensures TableEntry(i) == ShiftByte(i)
  {
    TableRow8Values();
    if i == 0x80 { }
    else if i == 0x81 { }
    else if i == 0x82 { }
    else if i == 0x83 { }
    else if i == 0x84 { }
    else if i == 0x85 { }
    else if i == 0x86 { }
    else if i == 0x87 { }
    else if i == 0x88 { }
    else if i == 0x89 { }
    else if i == 0x8A { }
    else if i == 0x8B { }
    else if i == 0x8C { }
    else if i == 0x8D { }
    else if i == 0x8E { }
    else { assert i == 0x8F; }
  }

  lemma TableRow9Values()
    ensures CRC8_TABLE[9] == [
      ShiftByte(0x90), ShiftByte(0x91), ShiftByte(0x92), ShiftByte(0x93),
      ShiftByte(0x94), ShiftByte(0x95), ShiftByte(0x96), ShiftByte(0x97),
      ShiftByte(0x98), ShiftByte(0x99), ShiftByte(0x9A), ShiftByte(0x9B),
      ShiftByte(0x9C), ShiftByte(0x9D), ShiftByte(0x9E), ShiftByte(0x9F)
    ]
  {
  }

  lemma TableRow9(i: bv8)
    requires i >> 4 == 0x9
    ensures TableEntry(i) == ShiftByte(i)
  {
    TableRow9Values();
    if i == 0x90 { }
    else if i == 0x91 { }
    else if i == 0x92 { }
    else if i == 0x93 { }
    else if i == 0x94 { }
    else if i == 0x95 { }
    else if i == 0x96 { }
    else if i == 0x97 { }
    else if i == 0x98 { }
    else if i == 0x99 { }
    else if i == 0x9A { }
    else if i == 0x9B { }
    else if i == 0x9C { }
    else if i == 0x9D { }
    else if i == 0x9E { }
    else { assert i == 0x9F; }
  }

  lemma TableRowAValues()
    ensures CRC8_TABLE[10] == [
      ShiftByte(0xA0), ShiftByte(0xA1), ShiftByte(0xA2), ShiftByte(0xA3),
      ShiftByte(0xA4), ShiftByte(0xA5), ShiftByte(0xA6), ShiftByte(0xA7),
      ShiftByte(0xA8), ShiftByte(0xA9), ShiftByte(0xAA), ShiftByte(0xAB),
      ShiftByte(0xAC), ShiftByte(0xAD), ShiftByte(0xAE), ShiftByte(0xAF)
    ]
  {
  }

  lemma TableRowA(i: bv8)
    requires i >> 4 == 0xA
    ensures TableEntry(i) == ShiftByte(i)
  {
    TableRowAValues();
    if i == 0xA0 { }
    else if i == 0xA1 { }
    else if i == 0xA2 { }
    else if i == 0xA3 { }
    else if i == 0xA4 { }
    else if i == 0xA5 { }
    else if i == 0xA6 { }
    else if i == 0xA7 { }
    else if i == 0xA8 { }
    else if i == 0xA9 { }
    else if i == 0xAA { }
    else if i == 0xAB { }
    else if i == 0xAC { }
    else if i == 0xAD { }
    else if i == 0xAE { }
    else { assert i == 0xAF; }
  }

  lemma TableRowBValues()
    ensures CRC8_TABLE[11] == [
      ShiftByte(0xB0), ShiftByte(0xB1), ShiftByte(0xB2), ShiftByte(0xB3),
      ShiftByte(0xB4), ShiftByte(0xB5), ShiftByte(0xB6), ShiftByte(0xB7),
      ShiftByte(0xB8), ShiftByte(0xB9), ShiftByte(0xBA), ShiftByte(0xBB),
      ShiftByte(0xBC), ShiftByte(0xBD), ShiftByte(0xBE), ShiftByte(0xBF)
    ]
  {
  }

  lemma TableRowB(i: bv8)
    requires i >> 4 == 0xB
    ensures TableEntry(i) == ShiftByte(i)
  {
    TableRowBValues();
    if i == 0xB0 { }
    else if i == 0xB1 { }
    else if i == 0xB2 { }
    else if i == 0xB3 { }
    else if i == 0xB4 { }
    else if i == 0xB5 { }
    else if i == 0xB6 { }
    else if i == 0xB7 { }
    else if i == 0xB8 { }
    else if i == 0xB9 { }
    else if i == 0xBA { }
    else if i == 0xBB { }
    else if i == 0xBC { }
    else if i == 0xBD { }
    else if i == 0xBE { }
    else { assert i == 0xBF; }
  }

  lemma TableRowCValues()
    ensures CRC8_TABLE[12] == [
      ShiftByte(0xC0), ShiftByte(0xC1), ShiftByte(0xC2), ShiftByte(0xC3),
      ShiftByte(0xC4), ShiftByte(0xC5), ShiftByte(0xC6), ShiftByte(0xC7),
      ShiftByte(0xC8), ShiftByte(0xC9), ShiftByte(0xCA), ShiftByte(0xCB),
      ShiftByte(0xCC), ShiftByte(0xCD), ShiftByte(0xCE), ShiftByte(0xCF)
    ]
  {
  }

  lemma TableRowC(i: bv8)
    requires i >> 4 == 0xC
    ensures TableEntry(i) == ShiftByte(i)
  {
    TableRowCValues();
    if i == 0xC0 { }
    else if i == 0xC1 { }
    else if i == 0xC2 { }
    else if i == 0xC3 { }
    else if i == 0xC4 { }
    else if i == 0xC5 { }
    else if i == 0xC6 { }
    else if i == 0xC7 { }
    else if i == 0xC8 { }
    else if i == 0xC9 { }
    else if i == 0xCA { }
    else if i == 0xCB { }
    else if i == 0xCC { }
    else if i == 0xCD { }
    else if i == 0xCE { }
    else { assert i == 0xCF; }
  }

  lemma TableRowDValues()
    ensures CRC8_TABLE[13] == [
      ShiftByte(0xD0), ShiftByte(0xD1), ShiftByte(0xD2), ShiftByte(0xD3),
      ShiftByte(0xD4), ShiftByte(0xD5), ShiftByte(0xD6), ShiftByte(0xD7),
      ShiftByte(0xD8), ShiftByte(0xD9), ShiftByte(0xDA), ShiftByte(0xDB),
      ShiftByte(0xDC), ShiftByte(0xDD), ShiftByte(0xDE), ShiftByte(0xDF)
    ]
  {
  }

  lemma TableRowD(i: bv8)
    requires i >> 4 == 0xD
    ensures TableEntry(i) == ShiftByte(i)
  {
    TableRowDValues();
    if i == 0xD0 { }
    else if i == 0xD1 { }
    else if i == 0xD2 { }
    else if i == 0xD3 { }
    else if i == 0xD4 { }
    else if i == 0xD5 { }
    else if i == 0xD6 { }
    else if i == 0xD7 { }
    else if i == 0xD8 { }
    else if i == 0xD9 { }
    else if i == 0xDA { }
    else if i == 0xDB { }
    else if i == 0xDC { }
    else if i == 0xDD { }
    else if i == 0xDE { }
    else { assert i == 0xDF; }
  }

  lemma TableRowEValues()
    ensures CRC8_TABLE[14] == [
      ShiftByte(0xE0), ShiftByte(0xE1), ShiftByte(0xE2), ShiftByte(0xE3),
      ShiftByte(0xE4), ShiftByte(0xE5), ShiftByte(0xE6), ShiftByte(0xE7),
      ShiftByte(0xE8), ShiftByte(0xE9), ShiftByte(0xEA), ShiftByte(0xEB),
      ShiftByte(0xEC), ShiftByte(0xED), ShiftByte(0xEE), ShiftByte(0xEF)
    ]
  {
  }

  lemma TableRowE(i: bv8)
    requires i >> 4 == 0xE
    ensures TableEntry(i) == ShiftByte(i)
  {
    TableRowEValues();
    if i == 0xE0 { }
    else if i == 0xE1 { }
    else if i == 0xE2 { }
    else if i == 0xE3 { }
    else if i == 0xE4 { }
    else if i == 0xE5 { }
    else if i == 0xE6 { }
    else if i == 0xE7 { }
    else if i == 0xE8 { }
    else if i == 0xE9 { }
    else if i == 0xEA { }
    else if i == 0xEB { }
    else if i == 0xEC { }
    else if i == 0xED { }
    else if i == 0xEE { }
    else { assert i == 0xEF; }
  }

  lemma TableRowFValues()
    ensures CRC8_TABLE[15] == [
      ShiftByte(0xF0), ShiftByte(0xF1), ShiftByte(0xF2), ShiftByte(0xF3),
      ShiftByte(0xF4), ShiftByte(0xF5), ShiftByte(0xF6), ShiftByte(0xF7),
      ShiftByte(0xF8), ShiftByte(0xF9), ShiftByte(0xFA), ShiftByte(0xFB),
      ShiftByte(0xFC), ShiftByte(0xFD), ShiftByte(0xFE), ShiftByte(0xFF)
    ]
  {
  }

  lemma TableRowF(i: bv8)
    requires i >> 4 == 0xF
    ensures TableEntry(i) == ShiftByte(i)
  {
    TableRowFValues();
    if i == 0xF0 { }
    else if i == 0xF1 { }
    else if i == 0xF2 { }
    else if i == 0xF3 { }
    else if i == 0xF4 { }
    else if i == 0xF5 { }
    else if i == 0xF6 { }
    else if i == 0xF7 { }
    else if i == 0xF8 { }
    else if i == 0xF9 { }
    else if i == 0xFA { }
    else if i == 0xFB { }
    else if i == 0xFC { }
    else if i == 0xFD { }
    else if i == 0xFE { }
    else { assert i == 0xFF; }
  }

  /** Every table entry is the bit loop applied to its index. */
  lemma TableEntryIsShiftByte(i: bv8)
    ensures TableEntry(i) == ShiftByte(i)
  {
    if i >> 4 == 0x0 { TableRow0(i); }
    else if i >> 4 == 0x1 { TableRow1(i); }
    else if i >> 4 == 0x2 { TableRow2(i); }
    else if i >> 4 == 0x3 { TableRow3(i); }
    else if i >> 4 == 0x4 { TableRow4(i); }
    else if i >> 4 == 0x5 { TableRow5(i); }
    else if i >> 4 == 0x6 { TableRow6(i); }
    else if i >> 4 == 0x7 { TableRow7(i); }
    else if i >> 4 == 0x8 { TableRow8(i); }
    else if i >> 4 == 0x9 { TableRow9(i); }
    else if i >> 4 == 0xA { TableRowA(i); }
    else if i >> 4 == 0xB { TableRowB(i); }
    else if i >> 4 == 0xC { TableRowC(i); }
    else if i >> 4 == 0xD { TableRowD(i); }
    else if i >> 4 == 0xE { TableRowE(i); }
    else { TableRowF(i); }
  }

  /** The table-driven and the bitwise computations agree on every byte sequence. */
  lemma {:induction false} TableCrcIsBitwiseCrc(crc: bv8, data: seq<bv8>)
    ensures TableCrcFrom(crc, data) == CrcFrom(crc, data)
    decreases |data|
  {
    if data != [] {
      TableEntryIsShiftByte(data[0] ^ crc);
      assert data[0] ^ crc == crc ^ data[0];
      TableCrcIsBitwiseCrc(ShiftByte(crc ^ data[0]), data[1..]);
    }
  }

  /** Processing a concatenation is processing its parts one after the other. */
  lemma {:induction false} CrcFromAppend(crc: bv8, a: seq<bv8>, b: seq<bv8>)
    ensures CrcFrom(crc, a + b) == CrcFrom(CrcFrom(crc, a), b)
    decreases |a|
  {
    if a != [] {
      assert (a + b)[0] == a[0];
      assert (a + b)[1..] == a[1..] + b;
      CrcFromAppend(ShiftByte(crc ^ a[0]), a[1..], b);
    } else {
      assert a + b == b;
    }
  }

  /**
   * Without a final xor, running the register over its own checksum clears
   * it: a block followed by its CRC has CRC zero.
   */
  lemma CrcResidueIsZero(data: seq<bv8>)
    ensures Crc8(data + [Crc8(data)]) == 0
  {
    CrcFromAppend(CRC8_INIT, data, [Crc8(data)]);
    var c := Crc8(data);
    assert c ^ c == 0;
  }

  /** The checksum example of the SHT3x datasheet: CRC(0xBEEF) = 0x92. */
  lemma DatasheetExample()
    ensures Crc8([0xBE, 0xEF]) == 0x92
  {
  }

  /** `crc_check` as built with the lookup table. */
  method CrcCheckTable(data: seq<bv8>, nbBytes: nat, checksum: bv8) returns (ok: bool)
    requires nbBytes <= |data|
    ensures ok <==> Crc8(data[..nbBytes]) == checksum
  {
    var crc := CRC8_INIT;
    var i, remaining := 0, nbBytes;
    while remaining != 0
      invariant i + remaining == nbBytes
      invariant TableCrcFrom(crc, data[i..nbBytes]) == TableCrcFrom(CRC8_INIT, data[..nbBytes])
    {
      assert data[i..nbBytes][1..] == data[i + 1..nbBytes];
      crc := TableEntry(data[i] ^ crc);
      i, remaining := i + 1, remaining - 1;
    }
    TableCrcIsBitwiseCrc(CRC8_INIT, data[..nbBytes]);
    ok := crc == checksum;
  }

  /** `crc_check` as built without the table: a byte loop around an eight-step bit loop. */
  method CrcCheckBitwise(data: seq<bv8>, nbBytes: nat, checksum: bv8) returns (ok: bool)
    requires nbBytes <= |data|
    ensures ok <==> Crc8(data[..nbBytes]) == checksum
  {
    var crc := CRC8_INIT;
    var i, byteCtr := 0, nbBytes;
    while byteCtr != 0
      invariant i + byteCtr == nbBytes
      invariant CrcFrom(crc, data[i..nbBytes]) == Crc8(data[..nbBytes])
    {
      assert data[i..nbBytes][1..] == data[i + 1..nbBytes];
      crc := crc ^ data[i];
      i := i + 1;
      ghost var start := crc;
      var bit := 8;
      while bit != 0
        invariant bit <= 8
        invariant crc == ShiftBits(start, 8 - bit)
      {
        crc := ShiftBit(crc);
        bit := bit - 1;
      }
      EightShiftsAreShiftByte(start);
      byteCtr := byteCtr - 1;
    }
    ok := crc == checksum;
  }
}
