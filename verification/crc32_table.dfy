/** The constant table of the section CRC, kept in rows of sixteen, and the proof that every one
    of its 256 entries is what the bitwise generator yields for that index. */
module Crc32Table {
  import opened Crc32Register

  /** One shift of the generator, written on the machine word. */
  function ShiftWord(c: bv32): bv32 {
    if c & 0x8000_0000 != 0 then (c << 1) ^ 0x04C11DB7 else c << 1
  }

  /** What the generator leaves in the register for one table index in the top byte. */
  function Generated(i: bv8): bv32 {
    ShiftWord(ShiftWord(ShiftWord(ShiftWord(ShiftWord(ShiftWord(ShiftWord(ShiftWord((i as bv32) << 24))))))))
  }

  /** The generator is linear: its value is the sum of the entries of the index's set bits. */
  function Basis(i: bv8): bv32 {
    (if i & 0x01 != 0 then 0x04C11DB7 else 0) ^ (if i & 0x02 != 0 then 0x09823B6E else 0) ^
    (if i & 0x04 != 0 then 0x130476DC else 0) ^ (if i & 0x08 != 0 then 0x2608EDB8 else 0) ^
    (if i & 0x10 != 0 then 0x4C11DB70 else 0) ^ (if i & 0x20 != 0 then 0x9823B6E0 else 0) ^
    (if i & 0x40 != 0 then 0x34867077 else 0) ^ (if i & 0x80 != 0 then 0x690CE0EE else 0)
  }

  lemma GeneratedByBits(i: bv8)
    ensures Generated(i) == Basis(i)
  {}

  function Row0(k: bv8): bv32 {
    if k == 0 then 0x00000000 else if k == 1 then 0x04C11DB7 else
    if k == 2 then 0x09823B6E else if k == 3 then 0x0D4326D9 else
    if k == 4 then 0x130476DC else if k == 5 then 0x17C56B6B else
    if k == 6 then 0x1A864DB2 else if k == 7 then 0x1E475005 else
    if k == 8 then 0x2608EDB8 else if k == 9 then 0x22C9F00F else
    if k == 10 then 0x2F8AD6D6 else if k == 11 then 0x2B4BCB61 else
    if k == 12 then 0x350C9B64 else if k == 13 then 0x31CD86D3 else
    if k == 14 then 0x3C8EA00A else 0x384FBDBD
  }

  function Row1(k: bv8): bv32 {
    if k == 0 then 0x4C11DB70 else if k == 1 then 0x48D0C6C7 else
    if k == 2 then 0x4593E01E else if k == 3 then 0x4152FDA9 else
    if k == 4 then 0x5F15ADAC else if k == 5 then 0x5BD4B01B else
    if k == 6 then 0x569796C2 else if k == 7 then 0x52568B75 else
    if k == 8 then 0x6A1936C8 else if k == 9 then 0x6ED82B7F else
    if k == 10 then 0x639B0DA6 else if k == 11 then 0x675A1011 else
    if k == 12 then 0x791D4014 else if k == 13 then 0x7DDC5DA3 else
    if k == 14 then 0x709F7B7A else 0x745E66CD
  }

  function Row2(k: bv8): bv32 {
    if k == 0 then 0x9823B6E0 else if k == 1 then 0x9CE2AB57 else
    if k == 2 then 0x91A18D8E else if k == 3 then 0x95609039 else
    if k == 4 then 0x8B27C03C else if k == 5 then 0x8FE6DD8B else
    if k == 6 then 0x82A5FB52 else if k == 7 then 0x8664E6E5 else
    if k == 8 then 0xBE2B5B58 else if k == 9 then 0xBAEA46EF else
    if k == 10 then 0xB7A96036 else if k == 11 then 0xB3687D81 else
    if k == 12 then 0xAD2F2D84 else if k == 13 then 0xA9EE3033 else
    if k == 14 then 0xA4AD16EA else 0xA06C0B5D
  }

  function Row3(k: bv8): bv32 {
    if k == 0 then 0xD4326D90 else if k == 1 then 0xD0F37027 else
    if k == 2 then 0xDDB056FE else if k == 3 then 0xD9714B49 else
    if k == 4 then 0xC7361B4C else if k == 5 then 0xC3F706FB else
    if k == 6 then 0xCEB42022 else if k == 7 then 0xCA753D95 else
    if k == 8 then 0xF23A8028 else if k == 9 then 0xF6FB9D9F else
    if k == 10 then 0xFBB8BB46 else if k == 11 then 0xFF79A6F1 else
    if k == 12 then 0xE13EF6F4 else if k == 13 then 0xE5FFEB43 else
    if k == 14 then 0xE8BCCD9A else 0xEC7DD02D
  }

  function Row4(k: bv8): bv32 {
    if k == 0 then 0x34867077 else if k == 1 then 0x30476DC0 else
    if k == 2 then 0x3D044B19 else if k == 3 then 0x39C556AE else
    if k == 4 then 0x278206AB else if k == 5 then 0x23431B1C else
    if k == 6 then 0x2E003DC5 else if k == 7 then 0x2AC12072 else
    if k == 8 then 0x128E9DCF else if k == 9 then 0x164F8078 else
    if k == 10 then 0x1B0CA6A1 else if k == 11 then 0x1FCDBB16 else
    if k == 12 then 0x018AEB13 else if k == 13 then 0x054BF6A4 else
    if k == 14 then 0x0808D07D else 0x0CC9CDCA
  }

  function Row5(k: bv8): bv32 {
    if k == 0 then 0x7897AB07 else if k == 1 then 0x7C56B6B0 else
    if k == 2 then 0x71159069 else if k == 3 then 0x75D48DDE else
    if k == 4 then 0x6B93DDDB else if k == 5 then 0x6F52C06C else
    if k == 6 then 0x6211E6B5 else if k == 7 then 0x66D0FB02 else
    if k == 8 then 0x5E9F46BF else if k == 9 then 0x5A5E5B08 else
    if k == 10 then 0x571D7DD1 else if k == 11 then 0x53DC6066 else
    if k == 12 then 0x4D9B3063 else if k == 13 then 0x495A2DD4 else
    if k == 14 then 0x44190B0D else 0x40D816BA
  }

  function Row6(k: bv8): bv32 {
    if k == 0 then 0xACA5C697 else if k == 1 then 0xA864DB20 else
    if k == 2 then 0xA527FDF9 else if k == 3 then 0xA1E6E04E else
    if k == 4 then 0xBFA1B04B else if k == 5 then 0xBB60ADFC else
    if k == 6 then 0xB6238B25 else if k == 7 then 0xB2E29692 else
    if k == 8 then 0x8AAD2B2F else if k == 9 then 0x8E6C3698 else
    if k == 10 then 0x832F1041 else if k == 11 then 0x87EE0DF6 else
    if k == 12 then 0x99A95DF3 else if k == 13 then 0x9D684044 else
    if k == 14 then 0x902B669D else 0x94EA7B2A
  }

  function Row7(k: bv8): bv32 {
    if k == 0 then 0xE0B41DE7 else if k == 1 then 0xE4750050 else
    if k == 2 then 0xE9362689 else if k == 3 then 0xEDF73B3E else
    if k == 4 then 0xF3B06B3B else if k == 5 then 0xF771768C else
    if k == 6 then 0xFA325055 else if k == 7 then 0xFEF34DE2 else
    if k == 8 then 0xC6BCF05F else if k == 9 then 0xC27DEDE8 else
    if k == 10 then 0xCF3ECB31 else if k == 11 then 0xCBFFD686 else
    if k == 12 then 0xD5B88683 else if k == 13 then 0xD1799B34 else
    if k == 14 then 0xDC3ABDED else 0xD8FBA05A
  }

  function Row8(k: bv8): bv32 {
    if k == 0 then 0x690CE0EE else if k == 1 then 0x6DCDFD59 else
    if k == 2 then 0x608EDB80 else if k == 3 then 0x644FC637 else
    if k == 4 then 0x7A089632 else if k == 5 then 0x7EC98B85 else
    if k == 6 then 0x738AAD5C else if k == 7 then 0x774BB0EB else
    if k == 8 then 0x4F040D56 else if k == 9 then 0x4BC510E1 else
    if k == 10 then 0x46863638 else if k == 11 then 0x42472B8F else
    if k == 12 then 0x5C007B8A else if k == 13 then 0x58C1663D else
    if k == 14 then 0x558240E4 else 0x51435D53
  }

  function Row9(k: bv8): bv32 {
    if k == 0 then 0x251D3B9E else if k == 1 then 0x21DC2629 else
    if k == 2 then 0x2C9F00F0 else if k == 3 then 0x285E1D47 else
    if k == 4 then 0x36194D42 else if k == 5 then 0x32D850F5 else
    if k == 6 then 0x3F9B762C else if k == 7 then 0x3B5A6B9B else
    if k == 8 then 0x0315D626 else if k == 9 then 0x07D4CB91 else
    if k == 10 then 0x0A97ED48 else if k == 11 then 0x0E56F0FF else
    if k == 12 then 0x1011A0FA else if k == 13 then 0x14D0BD4D else
    if k == 14 then 0x19939B94 else 0x1D528623
  }

  function RowA(k: bv8): bv32 {
    if k == 0 then 0xF12F560E else if k == 1 then 0xF5EE4BB9 else
    if k == 2 then 0xF8AD6D60 else if k == 3 then 0xFC6C70D7 else
    if k == 4 then 0xE22B20D2 else if k == 5 then 0xE6EA3D65 else
    if k == 6 then 0xEBA91BBC else if k == 7 then 0xEF68060B else
    if k == 8 then 0xD727BBB6 else if k == 9 then 0xD3E6A601 else
    if k == 10 then 0xDEA580D8 else if k == 11 then 0xDA649D6F else
    if k == 12 then 0xC423CD6A else if k == 13 then 0xC0E2D0DD else
    if k == 14 then 0xCDA1F604 else 0xC960EBB3
  }

  function RowB(k: bv8): bv32 {
    if k == 0 then 0xBD3E8D7E else if k == 1 then 0xB9FF90C9 else
    if k == 2 then 0xB4BCB610 else if k == 3 then 0xB07DABA7 else
    if k == 4 then 0xAE3AFBA2 else if k == 5 then 0xAAFBE615 else
    if k == 6 then 0xA7B8C0CC else if k == 7 then 0xA379DD7B else
    if k == 8 then 0x9B3660C6 else if k == 9 then 0x9FF77D71 else
    if k == 10 then 0x92B45BA8 else if k == 11 then 0x9675461F else
    if k == 12 then 0x8832161A else if k == 13 then 0x8CF30BAD else
    if k == 14 then 0x81B02D74 else 0x857130C3
  }

  function RowC(k: bv8): bv32 {
    if k == 0 then 0x5D8A9099 else if k == 1 then 0x594B8D2E else
    if k == 2 then 0x5408ABF7 else if k == 3 then 0x50C9B640 else
    if k == 4 then 0x4E8EE645 else if k == 5 then 0x4A4FFBF2 else
    if k == 6 then 0x470CDD2B else if k == 7 then 0x43CDC09C else
    if k == 8 then 0x7B827D21 else if k == 9 then 0x7F436096 else
    if k == 10 then 0x7200464F else if k == 11 then 0x76C15BF8 else
    if k == 12 then 0x68860BFD else if k == 13 then 0x6C47164A else
    if k == 14 then 0x61043093 else 0x65C52D24
  }

  function RowD(k: bv8): bv32 {
    if k == 0 then 0x119B4BE9 else if k == 1 then 0x155A565E else
    if k == 2 then 0x18197087 else if k == 3 then 0x1CD86D30 else
    if k == 4 then 0x029F3D35 else if k == 5 then 0x065E2082 else
    if k == 6 then 0x0B1D065B else if k == 7 then 0x0FDC1BEC else
    if k == 8 then 0x3793A651 else if k == 9 then 0x3352BBE6 else
    if k == 10 then 0x3E119D3F else if k == 11 then 0x3AD08088 else
    if k == 12 then 0x2497D08D else if k == 13 then 0x2056CD3A else
    if k == 14 then 0x2D15EBE3 else 0x29D4F654
  }

  function RowE(k: bv8): bv32 {
    if k == 0 then 0xC5A92679 else if k == 1 then 0xC1683BCE else
    if k == 2 then 0xCC2B1D17 else if k == 3 then 0xC8EA00A0 else
    if k == 4 then 0xD6AD50A5 else if k == 5 then 0xD26C4D12 else
    if k == 6 then 0xDF2F6BCB else if k == 7 then 0xDBEE767C else
    if k == 8 then 0xE3A1CBC1 else if k == 9 then 0xE760D676 else
    if k == 10 then 0xEA23F0AF else if k == 11 then 0xEEE2ED18 else
    if k == 12 then 0xF0A5BD1D else if k == 13 then 0xF464A0AA else
    if k == 14 then 0xF9278673 else 0xFDE69BC4
  }

  function RowF(k: bv8): bv32 {
    if k == 0 then 0x89B8FD09 else if k == 1 then 0x8D79E0BE else
    if k == 2 then 0x803AC667 else if k == 3 then 0x84FBDBD0 else
    if k == 4 then 0x9ABC8BD5 else if k == 5 then 0x9E7D9662 else
    if k == 6 then 0x933EB0BB else if k == 7 then 0x97FFAD0C else
    if k == 8 then 0xAFB010B1 else if k == 9 then 0xAB710D06 else
    if k == 10 then 0xA6322BDF else if k == 11 then 0xA2F33668 else
    if k == 12 then 0xBCB4666D else if k == 13 then 0xB8757BDA else
    if k == 14 then 0xB5365D03 else 0xB1F740B4
  }

  /** Entry `i` of the table. */
  function Entry(i: bv8): bv32 {
    var k := i & 0x0F;
    if i < 0x10 then Row0(k) else
    if i < 0x20 then Row1(k) else
    if i < 0x30 then Row2(k) else
    if i < 0x40 then Row3(k) else
    if i < 0x50 then Row4(k) else
    if i < 0x60 then Row5(k) else
    if i < 0x70 then Row6(k) else
    if i < 0x80 then Row7(k) else
    if i < 0x90 then Row8(k) else
    if i < 0xA0 then Row9(k) else
    if i < 0xB0 then RowA(k) else
    if i < 0xC0 then RowB(k) else
    if i < 0xD0 then RowC(k) else
    if i < 0xE0 then RowD(k) else
    if i < 0xF0 then RowE(k) else
    RowF(k)
  }

  lemma Row0ByBits(i: bv8)
    requires 0x00 <= i <= 0x0F
    ensures Row0(i & 0x0F) == Basis(i)
  {}

  lemma Row1ByBits(i: bv8)
    requires 0x10 <= i <= 0x1F
    ensures Row1(i & 0x0F) == Basis(i)
  {}

  lemma Row2ByBits(i: bv8)
    requires 0x20 <= i <= 0x2F
    ensures Row2(i & 0x0F) == Basis(i)
  {}

  lemma Row3ByBits(i: bv8)
    requires 0x30 <= i <= 0x3F
    ensures Row3(i & 0x0F) == Basis(i)
  {}

  lemma Row4ByBits(i: bv8)
    requires 0x40 <= i <= 0x4F
    ensures Row4(i & 0x0F) == Basis(i)
  {}

  lemma Row5ByBits(i: bv8)
    requires 0x50 <= i <= 0x5F
    ensures Row5(i & 0x0F) == Basis(i)
  {}

  lemma Row6ByBits(i: bv8)
    requires 0x60 <= i <= 0x6F
    ensures Row6(i & 0x0F) == Basis(i)
  {}

  lemma Row7ByBits(i: bv8)
    requires 0x70 <= i <= 0x7F
    ensures Row7(i & 0x0F) == Basis(i)
  {}

  lemma Row8ByBits(i: bv8)
    requires 0x80 <= i <= 0x8F
    ensures Row8(i & 0x0F) == Basis(i)
  {}

  lemma Row9ByBits(i: bv8)
    requires 0x90 <= i <= 0x9F
    ensures Row9(i & 0x0F) == Basis(i)
  {}

  lemma RowAByBits(i: bv8)
    requires 0xA0 <= i <= 0xAF
    ensures RowA(i & 0x0F) == Basis(i)
  {}

  lemma RowBByBits(i: bv8)
    requires 0xB0 <= i <= 0xBF
    ensures RowB(i & 0x0F) == Basis(i)
  {}

  lemma RowCByBits(i: bv8)
    requires 0xC0 <= i <= 0xCF
    ensures RowC(i & 0x0F) == Basis(i)
  {}

  lemma RowDByBits(i: bv8)
    requires 0xD0 <= i <= 0xDF
    ensures RowD(i & 0x0F) == Basis(i)
  {}

  lemma RowEByBits(i: bv8)
    requires 0xE0 <= i <= 0xEF
    ensures RowE(i & 0x0F) == Basis(i)
  {}

  lemma RowFByBits(i: bv8)
    requires 0xF0 <= i <= 0xFF
    ensures RowF(i & 0x0F) == Basis(i)
  {}

  /** Every table entry is what the bitwise generator computes for its index. */
  lemma EntryIsGenerated(i: bv8)
    ensures Entry(i) == Generated(i)
  {
    GeneratedByBits(i);
    if i < 0x10 {
      Row0ByBits(i);
    } else if i < 0x20 {
      Row1ByBits(i);
    } else if i < 0x30 {
      Row2ByBits(i);
    } else if i < 0x40 {
      Row3ByBits(i);
    } else if i < 0x50 {
      Row4ByBits(i);
    } else if i < 0x60 {
      Row5ByBits(i);
    } else if i < 0x70 {
      Row6ByBits(i);
    } else if i < 0x80 {
      Row7ByBits(i);
    } else if i < 0x90 {
      Row8ByBits(i);
    } else if i < 0xA0 {
      Row9ByBits(i);
    } else if i < 0xB0 {
      RowAByBits(i);
    } else if i < 0xC0 {
      RowBByBits(i);
    } else if i < 0xD0 {
      RowCByBits(i);
    } else if i < 0xE0 {
      RowDByBits(i);
    } else if i < 0xF0 {
      RowEByBits(i);
    } else {
      RowFByBits(i);
    }
  }
}
