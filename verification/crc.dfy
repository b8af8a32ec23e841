// The table-driven CRC-32 (lib1.c:1257-1315, the build without SSE 4.2) against
// the bit-serial reflected CRC-32 of section 8 of RFC 1952.

module Crc32 {
  const POLY: bv32 := 0xedb8_8320

  // One shift of the register.
  function Bit(x: bv32): bv32 {
    if x & 1 == 1 then (x >> 1) ^ POLY else x >> 1
  }

  function Xor(a: bv32, b: bv32): bv32 { a ^ b }

  function Low8(x: bv32): bv32 { x & 0xff }

  function High24(x: bv32): bv32 { x & 0xffff_ff00 }

  function Down8(x: bv32): bv32 { x >> 8 }

  function Wide(b: bv8): bv32 { b as bv32 }

  function Shift(x: bv32, n: nat): bv32
    decreases n
  {
    if n == 0 then x else Shift(Bit(x), n - 1)
  }

  // The register after n bits of b, the lowest first.
  function Feed(reg: bv32, b: bv32, n: nat): bv32
    decreases n
  {
    if n == 0 then reg else Feed(Bit(Xor(reg, b & 1)), b >> 1, n - 1)
  }

  // The bit-serial form: every byte in turn, its low bit first.
  function Serial(reg: bv32, p: seq<bv8>): bv32
    decreases |p|
  {
    if p == [] then reg else Serial(Feed(reg, Wide(p[0]), 8), p[1..])
  }

  // ---- the table ----

  // __crc32_tab, sixteen entries at a time.
  function Tab0(i: bv32): bv32 {
    if i == 0x00 then 0x0000_0000 else if i == 0x01 then 0x7707_3096 else if i == 0x02 then 0xee0e_612c else
    if i == 0x03 then 0x9909_51ba else if i == 0x04 then 0x076d_c419 else if i == 0x05 then 0x706a_f48f else
    if i == 0x06 then 0xe963_a535 else if i == 0x07 then 0x9e64_95a3 else if i == 0x08 then 0x0edb_8832 else
    if i == 0x09 then 0x79dc_b8a4 else if i == 0x0a then 0xe0d5_e91e else if i == 0x0b then 0x97d2_d988 else
    if i == 0x0c then 0x09b6_4c2b else if i == 0x0d then 0x7eb1_7cbd else if i == 0x0e then 0xe7b8_2d07 else
    0x90bf_1d91
  }

  function Tab1(i: bv32): bv32 {
    if i == 0x10 then 0x1db7_1064 else if i == 0x11 then 0x6ab0_20f2 else if i == 0x12 then 0xf3b9_7148 else
    if i == 0x13 then 0x84be_41de else if i == 0x14 then 0x1ada_d47d else if i == 0x15 then 0x6ddd_e4eb else
    if i == 0x16 then 0xf4d4_b551 else if i == 0x17 then 0x83d3_85c7 else if i == 0x18 then 0x136c_9856 else
    if i == 0x19 then 0x646b_a8c0 else if i == 0x1a then 0xfd62_f97a else if i == 0x1b then 0x8a65_c9ec else
    if i == 0x1c then 0x1401_5c4f else if i == 0x1d then 0x6306_6cd9 else if i == 0x1e then 0xfa0f_3d63 else
    0x8d08_0df5
  }

  function Tab2(i: bv32): bv32 {
    if i == 0x20 then 0x3b6e_20c8 else if i == 0x21 then 0x4c69_105e else if i == 0x22 then 0xd560_41e4 else
    if i == 0x23 then 0xa267_7172 else if i == 0x24 then 0x3c03_e4d1 else if i == 0x25 then 0x4b04_d447 else
    if i == 0x26 then 0xd20d_85fd else if i == 0x27 then 0xa50a_b56b else if i == 0x28 then 0x35b5_a8fa else
    if i == 0x29 then 0x42b2_986c else if i == 0x2a then 0xdbbb_c9d6 else if i == 0x2b then 0xacbc_f940 else
    if i == 0x2c then 0x32d8_6ce3 else if i == 0x2d then 0x45df_5c75 else if i == 0x2e then 0xdcd6_0dcf else
    0xabd1_3d59
  }

  function Tab3(i: bv32): bv32 {
    if i == 0x30 then 0x26d9_30ac else if i == 0x31 then 0x51de_003a else if i == 0x32 then 0xc8d7_5180 else
    if i == 0x33 then 0xbfd0_6116 else if i == 0x34 then 0x21b4_f4b5 else if i == 0x35 then 0x56b3_c423 else
    if i == 0x36 then 0xcfba_9599 else if i == 0x37 then 0xb8bd_a50f else if i == 0x38 then 0x2802_b89e else
    if i == 0x39 then 0x5f05_8808 else if i == 0x3a then 0xc60c_d9b2 else if i == 0x3b then 0xb10b_e924 else
    if i == 0x3c then 0x2f6f_7c87 else if i == 0x3d then 0x5868_4c11 else if i == 0x3e then 0xc161_1dab else
    0xb666_2d3d
  }

  function Tab4(i: bv32): bv32 {
    if i == 0x40 then 0x76dc_4190 else if i == 0x41 then 0x01db_7106 else if i == 0x42 then 0x98d2_20bc else
    if i == 0x43 then 0xefd5_102a else if i == 0x44 then 0x71b1_8589 else if i == 0x45 then 0x06b6_b51f else
    if i == 0x46 then 0x9fbf_e4a5 else if i == 0x47 then 0xe8b8_d433 else if i == 0x48 then 0x7807_c9a2 else
    if i == 0x49 then 0x0f00_f934 else if i == 0x4a then 0x9609_a88e else if i == 0x4b then 0xe10e_9818 else
    if i == 0x4c then 0x7f6a_0dbb else if i == 0x4d then 0x086d_3d2d else if i == 0x4e then 0x9164_6c97 else
    0xe663_5c01
  }

  function Tab5(i: bv32): bv32 {
    if i == 0x50 then 0x6b6b_51f4 else if i == 0x51 then 0x1c6c_6162 else if i == 0x52 then 0x8565_30d8 else
    if i == 0x53 then 0xf262_004e else if i == 0x54 then 0x6c06_95ed else if i == 0x55 then 0x1b01_a57b else
    if i == 0x56 then 0x8208_f4c1 else if i == 0x57 then 0xf50f_c457 else if i == 0x58 then 0x65b0_d9c6 else
    if i == 0x59 then 0x12b7_e950 else if i == 0x5a then 0x8bbe_b8ea else if i == 0x5b then 0xfcb9_887c else
    if i == 0x5c then 0x62dd_1ddf else if i == 0x5d then 0x15da_2d49 else if i == 0x5e then 0x8cd3_7cf3 else
    0xfbd4_4c65
  }

  function Tab6(i: bv32): bv32 {
    if i == 0x60 then 0x4db2_6158 else if i == 0x61 then 0x3ab5_51ce else if i == 0x62 then 0xa3bc_0074 else
    if i == 0x63 then 0xd4bb_30e2 else if i == 0x64 then 0x4adf_a541 else if i == 0x65 then 0x3dd8_95d7 else
    if i == 0x66 then 0xa4d1_c46d else if i == 0x67 then 0xd3d6_f4fb else if i == 0x68 then 0x4369_e96a else
    if i == 0x69 then 0x346e_d9fc else if i == 0x6a then 0xad67_8846 else if i == 0x6b then 0xda60_b8d0 else
    if i == 0x6c then 0x4404_2d73 else if i == 0x6d then 0x3303_1de5 else if i == 0x6e then 0xaa0a_4c5f else
    0xdd0d_7cc9
  }

  function Tab7(i: bv32): bv32 {
    if i == 0x70 then 0x5005_713c else if i == 0x71 then 0x2702_41aa else if i == 0x72 then 0xbe0b_1010 else
    if i == 0x73 then 0xc90c_2086 else if i == 0x74 then 0x5768_b525 else if i == 0x75 then 0x206f_85b3 else
    if i == 0x76 then 0xb966_d409 else if i == 0x77 then 0xce61_e49f else if i == 0x78 then 0x5ede_f90e else
    if i == 0x79 then 0x29d9_c998 else if i == 0x7a then 0xb0d0_9822 else if i == 0x7b then 0xc7d7_a8b4 else
    if i == 0x7c then 0x59b3_3d17 else if i == 0x7d then 0x2eb4_0d81 else if i == 0x7e then 0xb7bd_5c3b else
    0xc0ba_6cad
  }

  function Tab8(i: bv32): bv32 {
    if i == 0x80 then 0xedb8_8320 else if i == 0x81 then 0x9abf_b3b6 else if i == 0x82 then 0x03b6_e20c else
    if i == 0x83 then 0x74b1_d29a else if i == 0x84 then 0xead5_4739 else if i == 0x85 then 0x9dd2_77af else
    if i == 0x86 then 0x04db_2615 else if i == 0x87 then 0x73dc_1683 else if i == 0x88 then 0xe363_0b12 else
    if i == 0x89 then 0x9464_3b84 else if i == 0x8a then 0x0d6d_6a3e else if i == 0x8b then 0x7a6a_5aa8 else
    if i == 0x8c then 0xe40e_cf0b else if i == 0x8d then 0x9309_ff9d else if i == 0x8e then 0x0a00_ae27 else
    0x7d07_9eb1
  }

  function Tab9(i: bv32): bv32 {
    if i == 0x90 then 0xf00f_9344 else if i == 0x91 then 0x8708_a3d2 else if i == 0x92 then 0x1e01_f268 else
    if i == 0x93 then 0x6906_c2fe else if i == 0x94 then 0xf762_575d else if i == 0x95 then 0x8065_67cb else
    if i == 0x96 then 0x196c_3671 else if i == 0x97 then 0x6e6b_06e7 else if i == 0x98 then 0xfed4_1b76 else
    if i == 0x99 then 0x89d3_2be0 else if i == 0x9a then 0x10da_7a5a else if i == 0x9b then 0x67dd_4acc else
    if i == 0x9c then 0xf9b9_df6f else if i == 0x9d then 0x8ebe_eff9 else if i == 0x9e then 0x17b7_be43 else
    0x60b0_8ed5
  }

  function TabA(i: bv32): bv32 {
    if i == 0xa0 then 0xd6d6_a3e8 else if i == 0xa1 then 0xa1d1_937e else if i == 0xa2 then 0x38d8_c2c4 else
    if i == 0xa3 then 0x4fdf_f252 else if i == 0xa4 then 0xd1bb_67f1 else if i == 0xa5 then 0xa6bc_5767 else
    if i == 0xa6 then 0x3fb5_06dd else if i == 0xa7 then 0x48b2_364b else if i == 0xa8 then 0xd80d_2bda else
    if i == 0xa9 then 0xaf0a_1b4c else if i == 0xaa then 0x3603_4af6 else if i == 0xab then 0x4104_7a60 else
    if i == 0xac then 0xdf60_efc3 else if i == 0xad then 0xa867_df55 else if i == 0xae then 0x316e_8eef else
    0x4669_be79
  }

  function TabB(i: bv32): bv32 {
    if i == 0xb0 then 0xcb61_b38c else if i == 0xb1 then 0xbc66_831a else if i == 0xb2 then 0x256f_d2a0 else
    if i == 0xb3 then 0x5268_e236 else if i == 0xb4 then 0xcc0c_7795 else if i == 0xb5 then 0xbb0b_4703 else
    if i == 0xb6 then 0x2202_16b9 else if i == 0xb7 then 0x5505_262f else if i == 0xb8 then 0xc5ba_3bbe else
    if i == 0xb9 then 0xb2bd_0b28 else if i == 0xba then 0x2bb4_5a92 else if i == 0xbb then 0x5cb3_6a04 else
    if i == 0xbc then 0xc2d7_ffa7 else if i == 0xbd then 0xb5d0_cf31 else if i == 0xbe then 0x2cd9_9e8b else
    0x5bde_ae1d
  }

  function TabC(i: bv32): bv32 {
    if i == 0xc0 then 0x9b64_c2b0 else if i == 0xc1 then 0xec63_f226 else if i == 0xc2 then 0x756a_a39c else
    if i == 0xc3 then 0x026d_930a else if i == 0xc4 then 0x9c09_06a9 else if i == 0xc5 then 0xeb0e_363f else
    if i == 0xc6 then 0x7207_6785 else if i == 0xc7 then 0x0500_5713 else if i == 0xc8 then 0x95bf_4a82 else
    if i == 0xc9 then 0xe2b8_7a14 else if i == 0xca then 0x7bb1_2bae else if i == 0xcb then 0x0cb6_1b38 else
    if i == 0xcc then 0x92d2_8e9b else if i == 0xcd then 0xe5d5_be0d else if i == 0xce then 0x7cdc_efb7 else
    0x0bdb_df21
  }

  function TabD(i: bv32): bv32 {
    if i == 0xd0 then 0x86d3_d2d4 else if i == 0xd1 then 0xf1d4_e242 else if i == 0xd2 then 0x68dd_b3f8 else
    if i == 0xd3 then 0x1fda_836e else if i == 0xd4 then 0x81be_16cd else if i == 0xd5 then 0xf6b9_265b else
    if i == 0xd6 then 0x6fb0_77e1 else if i == 0xd7 then 0x18b7_4777 else if i == 0xd8 then 0x8808_5ae6 else
    if i == 0xd9 then 0xff0f_6a70 else if i == 0xda then 0x6606_3bca else if i == 0xdb then 0x1101_0b5c else
    if i == 0xdc then 0x8f65_9eff else if i == 0xdd then 0xf862_ae69 else if i == 0xde then 0x616b_ffd3 else
    0x166c_cf45
  }

  function TabE(i: bv32): bv32 {
    if i == 0xe0 then 0xa00a_e278 else if i == 0xe1 then 0xd70d_d2ee else if i == 0xe2 then 0x4e04_8354 else
    if i == 0xe3 then 0x3903_b3c2 else if i == 0xe4 then 0xa767_2661 else if i == 0xe5 then 0xd060_16f7 else
    if i == 0xe6 then 0x4969_474d else if i == 0xe7 then 0x3e6e_77db else if i == 0xe8 then 0xaed1_6a4a else
    if i == 0xe9 then 0xd9d6_5adc else if i == 0xea then 0x40df_0b66 else if i == 0xeb then 0x37d8_3bf0 else
    if i == 0xec then 0xa9bc_ae53 else if i == 0xed then 0xdebb_9ec5 else if i == 0xee then 0x47b2_cf7f else
    0x30b5_ffe9
  }

  function TabF(i: bv32): bv32 {
    if i == 0xf0 then 0xbdbd_f21c else if i == 0xf1 then 0xcaba_c28a else if i == 0xf2 then 0x53b3_9330 else
    if i == 0xf3 then 0x24b4_a3a6 else if i == 0xf4 then 0xbad0_3605 else if i == 0xf5 then 0xcdd7_0693 else
    if i == 0xf6 then 0x54de_5729 else if i == 0xf7 then 0x23d9_67bf else if i == 0xf8 then 0xb366_7a2e else
    if i == 0xf9 then 0xc461_4ab8 else if i == 0xfa then 0x5d68_1b02 else if i == 0xfb then 0x2a6f_2b94 else
    if i == 0xfc then 0xb40b_be37 else if i == 0xfd then 0xc30c_8ea1 else if i == 0xfe then 0x5a05_df1b else
    0x2d02_ef8d
  }

  function Tab(i: bv32): bv32 {
    if i >> 4 == 0 then Tab0(i) else if i >> 4 == 1 then Tab1(i)
    else if i >> 4 == 2 then Tab2(i) else if i >> 4 == 3 then Tab3(i) else if i >> 4 == 4 then Tab4(i)
    else if i >> 4 == 5 then Tab5(i) else if i >> 4 == 6 then Tab6(i) else if i >> 4 == 7 then Tab7(i)
    else if i >> 4 == 8 then Tab8(i) else if i >> 4 == 9 then Tab9(i) else if i >> 4 == 10 then TabA(i)
    else if i >> 4 == 11 then TabB(i) else if i >> 4 == 12 then TabC(i)
    else if i >> 4 == 13 then TabD(i) else if i >> 4 == 14 then TabE(i) else TabF(i)
  }

  function Byte8(x: bv32): bv32 {
    Bit(Bit(Bit(Bit(Bit(Bit(Bit(Bit(x))))))))
  }

  lemma Nibble(i: bv32)
    ensures i == ((i >> 4) << 4) | (i & 15)
  {
  }

  lemma Bytes0()
    ensures Byte8(0x00) == 0x0000_0000 && Byte8(0x01) == 0x7707_3096 && Byte8(0x02) == 0xee0e_612c && Byte8(0x03) == 0x9909_51ba
    ensures Byte8(0x04) == 0x076d_c419 && Byte8(0x05) == 0x706a_f48f && Byte8(0x06) == 0xe963_a535 && Byte8(0x07) == 0x9e64_95a3
    ensures Byte8(0x08) == 0x0edb_8832 && Byte8(0x09) == 0x79dc_b8a4 && Byte8(0x0a) == 0xe0d5_e91e && Byte8(0x0b) == 0x97d2_d988
    ensures Byte8(0x0c) == 0x09b6_4c2b && Byte8(0x0d) == 0x7eb1_7cbd && Byte8(0x0e) == 0xe7b8_2d07 && Byte8(0x0f) == 0x90bf_1d91
  {
  }

  lemma Row0(i: bv32)
    requires i >> 4 == 0
    ensures Tab0(i) == Byte8(i)
  {
    Nibble(i);
    hide Byte8;
    Bytes0();
  }

  lemma Bytes1()
    ensures Byte8(0x10) == 0x1db7_1064 && Byte8(0x11) == 0x6ab0_20f2 && Byte8(0x12) == 0xf3b9_7148 && Byte8(0x13) == 0x84be_41de
    ensures Byte8(0x14) == 0x1ada_d47d && Byte8(0x15) == 0x6ddd_e4eb && Byte8(0x16) == 0xf4d4_b551 && Byte8(0x17) == 0x83d3_85c7
    ensures Byte8(0x18) == 0x136c_9856 && Byte8(0x19) == 0x646b_a8c0 && Byte8(0x1a) == 0xfd62_f97a && Byte8(0x1b) == 0x8a65_c9ec
    ensures Byte8(0x1c) == 0x1401_5c4f && Byte8(0x1d) == 0x6306_6cd9 && Byte8(0x1e) == 0xfa0f_3d63 && Byte8(0x1f) == 0x8d08_0df5
  {
  }

  lemma Row1(i: bv32)
    requires i >> 4 == 1
    ensures Tab1(i) == Byte8(i)
  {
    Nibble(i);
    hide Byte8;
    Bytes1();
  }

  lemma Bytes2()
    ensures Byte8(0x20) == 0x3b6e_20c8 && Byte8(0x21) == 0x4c69_105e && Byte8(0x22) == 0xd560_41e4 && Byte8(0x23) == 0xa267_7172
    ensures Byte8(0x24) == 0x3c03_e4d1 && Byte8(0x25) == 0x4b04_d447 && Byte8(0x26) == 0xd20d_85fd && Byte8(0x27) == 0xa50a_b56b
    ensures Byte8(0x28) == 0x35b5_a8fa && Byte8(0x29) == 0x42b2_986c && Byte8(0x2a) == 0xdbbb_c9d6 && Byte8(0x2b) == 0xacbc_f940
    ensures Byte8(0x2c) == 0x32d8_6ce3 && Byte8(0x2d) == 0x45df_5c75 && Byte8(0x2e) == 0xdcd6_0dcf && Byte8(0x2f) == 0xabd1_3d59
  {
  }

  lemma Row2(i: bv32)
    requires i >> 4 == 2
    ensures Tab2(i) == Byte8(i)
  {
    Nibble(i);
    hide Byte8;
    Bytes2();
  }

  lemma Bytes3()
    ensures Byte8(0x30) == 0x26d9_30ac && Byte8(0x31) == 0x51de_003a && Byte8(0x32) == 0xc8d7_5180 && Byte8(0x33) == 0xbfd0_6116
    ensures Byte8(0x34) == 0x21b4_f4b5 && Byte8(0x35) == 0x56b3_c423 && Byte8(0x36) == 0xcfba_9599 && Byte8(0x37) == 0xb8bd_a50f
    ensures Byte8(0x38) == 0x2802_b89e && Byte8(0x39) == 0x5f05_8808 && Byte8(0x3a) == 0xc60c_d9b2 && Byte8(0x3b) == 0xb10b_e924
    ensures Byte8(0x3c) == 0x2f6f_7c87 && Byte8(0x3d) == 0x5868_4c11 && Byte8(0x3e) == 0xc161_1dab && Byte8(0x3f) == 0xb666_2d3d
  {
  }

  lemma Row3(i: bv32)
    requires i >> 4 == 3
    ensures Tab3(i) == Byte8(i)
  {
    Nibble(i);
    hide Byte8;
    Bytes3();
  }

  lemma Bytes4()
    ensures Byte8(0x40) == 0x76dc_4190 && Byte8(0x41) == 0x01db_7106 && Byte8(0x42) == 0x98d2_20bc && Byte8(0x43) == 0xefd5_102a
    ensures Byte8(0x44) == 0x71b1_8589 && Byte8(0x45) == 0x06b6_b51f && Byte8(0x46) == 0x9fbf_e4a5 && Byte8(0x47) == 0xe8b8_d433
    ensures Byte8(0x48) == 0x7807_c9a2 && Byte8(0x49) == 0x0f00_f934 && Byte8(0x4a) == 0x9609_a88e && Byte8(0x4b) == 0xe10e_9818
    ensures Byte8(0x4c) == 0x7f6a_0dbb && Byte8(0x4d) == 0x086d_3d2d && Byte8(0x4e) == 0x9164_6c97 && Byte8(0x4f) == 0xe663_5c01
  {
  }

  lemma Row4(i: bv32)
    requires i >> 4 == 4
    ensures Tab4(i) == Byte8(i)
  {
    Nibble(i);
    hide Byte8;
    Bytes4();
  }

  lemma Bytes5()
    ensures Byte8(0x50) == 0x6b6b_51f4 && Byte8(0x51) == 0x1c6c_6162 && Byte8(0x52) == 0x8565_30d8 && Byte8(0x53) == 0xf262_004e
    ensures Byte8(0x54) == 0x6c06_95ed && Byte8(0x55) == 0x1b01_a57b && Byte8(0x56) == 0x8208_f4c1 && Byte8(0x57) == 0xf50f_c457
    ensures Byte8(0x58) == 0x65b0_d9c6 && Byte8(0x59) == 0x12b7_e950 && Byte8(0x5a) == 0x8bbe_b8ea && Byte8(0x5b) == 0xfcb9_887c
    ensures Byte8(0x5c) == 0x62dd_1ddf && Byte8(0x5d) == 0x15da_2d49 && Byte8(0x5e) == 0x8cd3_7cf3 && Byte8(0x5f) == 0xfbd4_4c65
  {
  }

  lemma Row5(i: bv32)
    requires i >> 4 == 5
    ensures Tab5(i) == Byte8(i)
  {
    Nibble(i);
    hide Byte8;
    Bytes5();
  }

  lemma Bytes6()
    ensures Byte8(0x60) == 0x4db2_6158 && Byte8(0x61) == 0x3ab5_51ce && Byte8(0x62) == 0xa3bc_0074 && Byte8(0x63) == 0xd4bb_30e2
    ensures Byte8(0x64) == 0x4adf_a541 && Byte8(0x65) == 0x3dd8_95d7 && Byte8(0x66) == 0xa4d1_c46d && Byte8(0x67) == 0xd3d6_f4fb
    ensures Byte8(0x68) == 0x4369_e96a && Byte8(0x69) == 0x346e_d9fc && Byte8(0x6a) == 0xad67_8846 && Byte8(0x6b) == 0xda60_b8d0
    ensures Byte8(0x6c) == 0x4404_2d73 && Byte8(0x6d) == 0x3303_1de5 && Byte8(0x6e) == 0xaa0a_4c5f && Byte8(0x6f) == 0xdd0d_7cc9
  {
  }

  lemma Row6(i: bv32)
    requires i >> 4 == 6
    ensures Tab6(i) == Byte8(i)
  {
    Nibble(i);
    hide Byte8;
    Bytes6();
  }

  lemma Bytes7()
    ensures Byte8(0x70) == 0x5005_713c && Byte8(0x71) == 0x2702_41aa && Byte8(0x72) == 0xbe0b_1010 && Byte8(0x73) == 0xc90c_2086
    ensures Byte8(0x74) == 0x5768_b525 && Byte8(0x75) == 0x206f_85b3 && Byte8(0x76) == 0xb966_d409 && Byte8(0x77) == 0xce61_e49f
    ensures Byte8(0x78) == 0x5ede_f90e && Byte8(0x79) == 0x29d9_c998 && Byte8(0x7a) == 0xb0d0_9822 && Byte8(0x7b) == 0xc7d7_a8b4
    ensures Byte8(0x7c) == 0x59b3_3d17 && Byte8(0x7d) == 0x2eb4_0d81 && Byte8(0x7e) == 0xb7bd_5c3b && Byte8(0x7f) == 0xc0ba_6cad
  {
  }

  lemma Row7(i: bv32)
    requires i >> 4 == 7
    ensures Tab7(i) == Byte8(i)
  {
    Nibble(i);
    hide Byte8;
    Bytes7();
  }

  lemma Bytes8()
    ensures Byte8(0x80) == 0xedb8_8320 && Byte8(0x81) == 0x9abf_b3b6 && Byte8(0x82) == 0x03b6_e20c && Byte8(0x83) == 0x74b1_d29a
    ensures Byte8(0x84) == 0xead5_4739 && Byte8(0x85) == 0x9dd2_77af && Byte8(0x86) == 0x04db_2615 && Byte8(0x87) == 0x73dc_1683
    ensures Byte8(0x88) == 0xe363_0b12 && Byte8(0x89) == 0x9464_3b84 && Byte8(0x8a) == 0x0d6d_6a3e && Byte8(0x8b) == 0x7a6a_5aa8
    ensures Byte8(0x8c) == 0xe40e_cf0b && Byte8(0x8d) == 0x9309_ff9d && Byte8(0x8e) == 0x0a00_ae27 && Byte8(0x8f) == 0x7d07_9eb1
  {
  }

  lemma Row8(i: bv32)
    requires i >> 4 == 8
    ensures Tab8(i) == Byte8(i)
  {
    Nibble(i);
    hide Byte8;
    Bytes8();
  }

  lemma Bytes9()
    ensures Byte8(0x90) == 0xf00f_9344 && Byte8(0x91) == 0x8708_a3d2 && Byte8(0x92) == 0x1e01_f268 && Byte8(0x93) == 0x6906_c2fe
    ensures Byte8(0x94) == 0xf762_575d && Byte8(0x95) == 0x8065_67cb && Byte8(0x96) == 0x196c_3671 && Byte8(0x97) == 0x6e6b_06e7
    ensures Byte8(0x98) == 0xfed4_1b76 && Byte8(0x99) == 0x89d3_2be0 && Byte8(0x9a) == 0x10da_7a5a && Byte8(0x9b) == 0x67dd_4acc
    ensures Byte8(0x9c) == 0xf9b9_df6f && Byte8(0x9d) == 0x8ebe_eff9 && Byte8(0x9e) == 0x17b7_be43 && Byte8(0x9f) == 0x60b0_8ed5
  {
  }

  lemma Row9(i: bv32)
    requires i >> 4 == 9
    ensures Tab9(i) == Byte8(i)
  {
    Nibble(i);
    hide Byte8;
    Bytes9();
  }

  lemma BytesA()
    ensures Byte8(0xa0) == 0xd6d6_a3e8 && Byte8(0xa1) == 0xa1d1_937e && Byte8(0xa2) == 0x38d8_c2c4 && Byte8(0xa3) == 0x4fdf_f252
    ensures Byte8(0xa4) == 0xd1bb_67f1 && Byte8(0xa5) == 0xa6bc_5767 && Byte8(0xa6) == 0x3fb5_06dd && Byte8(0xa7) == 0x48b2_364b
    ensures Byte8(0xa8) == 0xd80d_2bda && Byte8(0xa9) == 0xaf0a_1b4c && Byte8(0xaa) == 0x3603_4af6 && Byte8(0xab) == 0x4104_7a60
    ensures Byte8(0xac) == 0xdf60_efc3 && Byte8(0xad) == 0xa867_df55 && Byte8(0xae) == 0x316e_8eef && Byte8(0xaf) == 0x4669_be79
  {
  }

  lemma RowA(i: bv32)
    requires i >> 4 == 10
    ensures TabA(i) == Byte8(i)
  {
    Nibble(i);
    hide Byte8;
    BytesA();
  }

  lemma BytesB()
    ensures Byte8(0xb0) == 0xcb61_b38c && Byte8(0xb1) == 0xbc66_831a && Byte8(0xb2) == 0x256f_d2a0 && Byte8(0xb3) == 0x5268_e236
    ensures Byte8(0xb4) == 0xcc0c_7795 && Byte8(0xb5) == 0xbb0b_4703 && Byte8(0xb6) == 0x2202_16b9 && Byte8(0xb7) == 0x5505_262f
    ensures Byte8(0xb8) == 0xc5ba_3bbe && Byte8(0xb9) == 0xb2bd_0b28 && Byte8(0xba) == 0x2bb4_5a92 && Byte8(0xbb) == 0x5cb3_6a04
    ensures Byte8(0xbc) == 0xc2d7_ffa7 && Byte8(0xbd) == 0xb5d0_cf31 && Byte8(0xbe) == 0x2cd9_9e8b && Byte8(0xbf) == 0x5bde_ae1d
  {
  }

  lemma RowB(i: bv32)
    requires i >> 4 == 11
    ensures TabB(i) == Byte8(i)
  {
    Nibble(i);
    hide Byte8;
    BytesB();
  }

  lemma BytesC()
    ensures Byte8(0xc0) == 0x9b64_c2b0 && Byte8(0xc1) == 0xec63_f226 && Byte8(0xc2) == 0x756a_a39c && Byte8(0xc3) == 0x026d_930a
    ensures Byte8(0xc4) == 0x9c09_06a9 && Byte8(0xc5) == 0xeb0e_363f && Byte8(0xc6) == 0x7207_6785 && Byte8(0xc7) == 0x0500_5713
    ensures Byte8(0xc8) == 0x95bf_4a82 && Byte8(0xc9) == 0xe2b8_7a14 && Byte8(0xca) == 0x7bb1_2bae && Byte8(0xcb) == 0x0cb6_1b38
    ensures Byte8(0xcc) == 0x92d2_8e9b && Byte8(0xcd) == 0xe5d5_be0d && Byte8(0xce) == 0x7cdc_efb7 && Byte8(0xcf) == 0x0bdb_df21
  {
  }

  lemma RowC(i: bv32)
    requires i >> 4 == 12
    ensures TabC(i) == Byte8(i)
  {
    Nibble(i);
    hide Byte8;
    BytesC();
  }

  lemma BytesD()
    ensures Byte8(0xd0) == 0x86d3_d2d4 && Byte8(0xd1) == 0xf1d4_e242 && Byte8(0xd2) == 0x68dd_b3f8 && Byte8(0xd3) == 0x1fda_836e
    ensures Byte8(0xd4) == 0x81be_16cd && Byte8(0xd5) == 0xf6b9_265b && Byte8(0xd6) == 0x6fb0_77e1 && Byte8(0xd7) == 0x18b7_4777
    ensures Byte8(0xd8) == 0x8808_5ae6 && Byte8(0xd9) == 0xff0f_6a70 && Byte8(0xda) == 0x6606_3bca && Byte8(0xdb) == 0x1101_0b5c
    ensures Byte8(0xdc) == 0x8f65_9eff && Byte8(0xdd) == 0xf862_ae69 && Byte8(0xde) == 0x616b_ffd3 && Byte8(0xdf) == 0x166c_cf45
  {
  }

  lemma RowD(i: bv32)
    requires i >> 4 == 13
    ensures TabD(i) == Byte8(i)
  {
    Nibble(i);
    hide Byte8;
    BytesD();
  }

  lemma BytesE()
    ensures Byte8(0xe0) == 0xa00a_e278 && Byte8(0xe1) == 0xd70d_d2ee && Byte8(0xe2) == 0x4e04_8354 && Byte8(0xe3) == 0x3903_b3c2
    ensures Byte8(0xe4) == 0xa767_2661 && Byte8(0xe5) == 0xd060_16f7 && Byte8(0xe6) == 0x4969_474d && Byte8(0xe7) == 0x3e6e_77db
    ensures Byte8(0xe8) == 0xaed1_6a4a && Byte8(0xe9) == 0xd9d6_5adc && Byte8(0xea) == 0x40df_0b66 && Byte8(0xeb) == 0x37d8_3bf0
    ensures Byte8(0xec) == 0xa9bc_ae53 && Byte8(0xed) == 0xdebb_9ec5 && Byte8(0xee) == 0x47b2_cf7f && Byte8(0xef) == 0x30b5_ffe9
  {
  }

  lemma RowE(i: bv32)
    requires i >> 4 == 14
    ensures TabE(i) == Byte8(i)
  {
    Nibble(i);
    hide Byte8;
    BytesE();
  }

  lemma BytesF()
    ensures Byte8(0xf0) == 0xbdbd_f21c && Byte8(0xf1) == 0xcaba_c28a && Byte8(0xf2) == 0x53b3_9330 && Byte8(0xf3) == 0x24b4_a3a6
    ensures Byte8(0xf4) == 0xbad0_3605 && Byte8(0xf5) == 0xcdd7_0693 && Byte8(0xf6) == 0x54de_5729 && Byte8(0xf7) == 0x23d9_67bf
    ensures Byte8(0xf8) == 0xb366_7a2e && Byte8(0xf9) == 0xc461_4ab8 && Byte8(0xfa) == 0x5d68_1b02 && Byte8(0xfb) == 0x2a6f_2b94
    ensures Byte8(0xfc) == 0xb40b_be37 && Byte8(0xfd) == 0xc30c_8ea1 && Byte8(0xfe) == 0x5a05_df1b && Byte8(0xff) == 0x2d02_ef8d
  {
  }

  lemma RowF(i: bv32)
    requires i >> 4 == 15
    ensures TabF(i) == Byte8(i)
  {
    Nibble(i);
    hide Byte8;
    BytesF();
  }

  // Every table entry is its index shifted through eight bits.
  lemma TabIs(i: bv32)
    requires i < 256
    ensures Tab(i) == Byte8(i)
  {
    hide Byte8, Tab0, Tab1, Tab2, Tab3, Tab4, Tab5, Tab6, Tab7, Tab8, Tab9, TabA, TabB, TabC, TabD, TabE, TabF;
    if i >> 4 == 0 {
      Row0(i);
    } else if i >> 4 == 1 {
      Row1(i);
    } else if i >> 4 == 2 {
      Row2(i);
    } else if i >> 4 == 3 {
      Row3(i);
    } else if i >> 4 == 4 {
      Row4(i);
    } else if i >> 4 == 5 {
      Row5(i);
    } else if i >> 4 == 6 {
      Row6(i);
    } else if i >> 4 == 7 {
      Row7(i);
    } else if i >> 4 == 8 {
      Row8(i);
    } else if i >> 4 == 9 {
      Row9(i);
    } else if i >> 4 == 10 {
      RowA(i);
    } else if i >> 4 == 11 {
      RowB(i);
    } else if i >> 4 == 12 {
      RowC(i);
    } else if i >> 4 == 13 {
      RowD(i);
    } else if i >> 4 == 14 {
      RowE(i);
    } else if i >> 4 == 15 {
      RowF(i);
    }
  }

  // ---- shifting is linear ----

  lemma BitLinear(a: bv32, b: bv32)
    ensures Bit(Xor(a, b)) == Xor(Bit(a), Bit(b))
  {
    hide Bit;
    BitXor(a, b);
  }

  lemma BitXor(a: bv32, b: bv32)
    ensures Bit(a ^ b) == Bit(a) ^ Bit(b)
  {
    LowBits(a, b);
    assert (a ^ b) >> 1 == (a >> 1) ^ (b >> 1);
    XorTwice(a >> 1, b >> 1, POLY);
  }

  lemma LowBits(a: bv32, b: bv32)
    ensures (a ^ b) & 1 == (a & 1) ^ (b & 1)
    ensures (a & 1 == 0 || a & 1 == 1) && (b & 1 == 0 || b & 1 == 1)
  {
  }

  lemma XorTwice(x: bv32, y: bv32, p: bv32)
    ensures (x ^ p) ^ (y ^ p) == x ^ y && (x ^ p) ^ y == (x ^ y) ^ p && x ^ (y ^ p) == (x ^ y) ^ p
  {
  }

  lemma {:induction false} ShiftLinear(a: bv32, b: bv32, n: nat)
    ensures Shift(Xor(a, b), n) == Xor(Shift(a, n), Shift(b, n))
    decreases n
  {
    hide Bit, Xor;
    if n > 0 {
      BitLinear(a, b);
      ShiftLinear(Bit(a), Bit(b), n - 1);
    }
  }

  // With nothing in the low byte, shifting only moves the bits down.
  lemma ShiftHigh(x: bv32)
    ensures Byte8(High24(x)) == Down8(High24(x)) == Down8(x)
  {
    hide Byte8, High24, Down8;
    Upper(x);
    OnlyDown(High24(x));
  }

  lemma Upper(x: bv32)
    ensures High24(x) & 0xff == 0 && Down8(High24(x)) == Down8(x)
  {
  }

  lemma OnlyDown(x: bv32)
    requires x & 0xff == 0
    ensures Byte8(x) == Down8(x)
  {
  }

  lemma {:induction false} ShiftEight(x: bv32)
    ensures Shift(x, 8) == Byte8(x)
  {
    hide Bit;
  }

  // b has no bit at or above n.
  predicate Narrow(b: bv32, n: nat)
    decreases n
  {
    if n == 0 then b == 0 else Narrow(b >> 1, n - 1)
  }

  // Feeding a byte bit by bit is xoring it in and shifting.
  lemma {:induction false} FeedIsShift(reg: bv32, b: bv32, n: nat)
    requires Narrow(b, n)
    ensures Feed(reg, b, n) == Shift(Xor(reg, b), n)
    decreases n
  {
    if n == 0 {
      assert reg ^ 0 == reg;
    } else {
      OneBit(reg, b);
      hide Xor, Bit;
      FeedIsShift(Bit(Xor(reg, b & 1)), b >> 1, n - 1);
    }
  }

  function Low1(x: bv32): bv32 { x & 1 }

  function High31(x: bv32): bv32 { x & 0xffff_fffe }

  lemma BitHalves(x: bv32)
    ensures x == Xor(Low1(x), High31(x)) && High31(x) & 1 == 0 && High31(x) >> 1 == x >> 1
  {
  }

  lemma BitEven(x: bv32)
    requires x & 1 == 0
    ensures Bit(x) == x >> 1
  {
  }

  lemma XorAssoc(a: bv32, b: bv32, c: bv32)
    ensures Xor(Xor(a, b), c) == Xor(a, Xor(b, c))
  {
  }

  // The low bit of b is fed now, the others one place down.
  lemma OneBit(reg: bv32, b: bv32)
    ensures Bit(Xor(reg, b)) == Xor(Bit(Xor(reg, Low1(b))), b >> 1)
  {
    hide Bit, Xor, Low1, High31;
    BitHalves(b);
    BitEven(High31(b));
    XorAssoc(reg, Low1(b), High31(b));
    BitLinear(Xor(reg, Low1(b)), High31(b));
  }

  lemma ByteNarrow(b: bv8)
    ensures Narrow(Wide(b), 8)
  {
    var x := b as bv32;
    assert ((((((((x >> 1) >> 1) >> 1) >> 1) >> 1) >> 1) >> 1) >> 1) == 0;
  }

  lemma Halves(x: bv32)
    ensures Low8(x) < 256 && x == Xor(Low8(x), High24(x))
  {
  }

  lemma Above(crc: bv32, b: bv8)
    ensures Down8(Xor(crc, Wide(b))) == Down8(crc)
  {
  }

  // One table step is one byte of the bit-serial form.
  lemma {:induction false} TableStep(crc: bv32, b: bv8)
    ensures Xor(Tab(Low8(Xor(crc, Wide(b)))), Down8(crc)) == Feed(crc, Wide(b), 8)
  {
    hide Bit, Byte8, Tab, Feed, Shift, Narrow, Xor, Low8, High24, Down8, Wide;
    var x := Xor(crc, Wide(b));
    Halves(x);
    Above(crc, b);
    TabIs(Low8(x));
    ByteNarrow(b);
    FeedIsShift(crc, Wide(b), 8);
    ShiftLinear(Low8(x), High24(x), 8);
    ShiftEight(Low8(x));
    ShiftEight(High24(x));
    ShiftHigh(x);
  }

  // crc32: byte at a time through the table, equal to the bit-serial CRC of
  // every byte string.
  method Crc(p: seq<bv8>) returns (r: bv32)
    ensures r == Serial(0xffff_ffff, p) ^ 0xffff_ffff
  {
    hide Bit, Byte8, Tab, Feed, Xor, Low8, Down8, Wide;
    var crc: bv32 := 0xffff_ffff;
    var i := 0;
    assert p[0..] == p;
    while i < |p|
      invariant 0 <= i <= |p| && Serial(crc, p[i..]) == Serial(0xffff_ffff, p)
    {
      TableStep(crc, p[i]);
      assert p[i..][1..] == p[i + 1..];
      crc := Xor(Tab(Low8(Xor(crc, Wide(p[i])))), Down8(crc));
      i := i + 1;
    }
    r := crc ^ 0xffff_ffff;
  }
}
