/** The known answer of FIPS 180-4 for the message "abc": the whole way through the functions
    the packer is proved against. */
module Sha1Answer {
  import opened Sha1

  // The one padded block of "abc".
  ghost predicate IsAbc(block: seq<Word>) {
    && |block| == 16 && block[0] == 0x6162_6380 && block[15] == 0x18
    && forall i :: 1 <= i < 15 ==> block[i] == 0
  }

  // ----- The schedule, sixteen words at a time

  lemma Words0(block: seq<Word>)
    requires IsAbc(block)
    ensures W(block, 0) == 0x6162_6380 && W(block, 1) == 0 && W(block, 2) == 0 && W(block, 3) == 0
    ensures W(block, 4) == 0 && W(block, 5) == 0 && W(block, 6) == 0 && W(block, 7) == 0
    ensures W(block, 8) == 0 && W(block, 9) == 0 && W(block, 10) == 0 && W(block, 11) == 0
    ensures W(block, 12) == 0 && W(block, 13) == 0 && W(block, 14) == 0 && W(block, 15) == 0x0000_0018
  {}

  lemma Words16(block: seq<Word>)
    requires IsAbc(block)
    ensures W(block, 16) == 0xc2c4_c700 && W(block, 17) == 0 && W(block, 18) == 0x0000_0030 && W(block, 19) == 0x8589_8e01
    ensures W(block, 20) == 0 && W(block, 21) == 0x0000_0060 && W(block, 22) == 0x0b13_1c03 && W(block, 23) == 0x0000_0030
    ensures W(block, 24) == 0x8589_8ec1 && W(block, 25) == 0x1626_3806 && W(block, 26) == 0 && W(block, 27) == 0x0000_0180
    ensures W(block, 28) == 0x2c4c_700c && W(block, 29) == 0x0000_00f0 && W(block, 30) == 0x93af_b507 && W(block, 31) == 0x5898_e048
  {
    Words0(block);
    assert Mingle(0, 0, 0, 0x6162_6380) == 0xc2c4_c700;
    assert Mingle(0, 0, 0, 0) == 0;
    assert Mingle(0x0000_0018, 0, 0, 0) == 0x0000_0030;
    assert Mingle(0xc2c4_c700, 0, 0, 0) == 0x8589_8e01;
    assert Mingle(0, 0, 0, 0) == 0;
    assert Mingle(0x0000_0030, 0, 0, 0) == 0x0000_0060;
    assert Mingle(0x8589_8e01, 0, 0, 0) == 0x0b13_1c03;
    assert Mingle(0, 0x0000_0018, 0, 0) == 0x0000_0030;
    assert Mingle(0x0000_0060, 0xc2c4_c700, 0, 0) == 0x8589_8ec1;
    assert Mingle(0x0b13_1c03, 0, 0, 0) == 0x1626_3806;
    assert Mingle(0x0000_0030, 0x0000_0030, 0, 0) == 0;
    assert Mingle(0x8589_8ec1, 0x8589_8e01, 0, 0) == 0x0000_0180;
    assert Mingle(0x1626_3806, 0, 0, 0) == 0x2c4c_700c;
    assert Mingle(0, 0x0000_0060, 0x0000_0018, 0) == 0x0000_00f0;
    assert Mingle(0x0000_0180, 0x0b13_1c03, 0xc2c4_c700, 0) == 0x93af_b507;
    assert Mingle(0x2c4c_700c, 0x0000_0030, 0, 0x0000_0018) == 0x5898_e048;
  }

  lemma Words32(block: seq<Word>)
    requires IsAbc(block)
    ensures W(block, 32) == 0x8e9a_9202 && W(block, 33) == 0x0000_0600 && W(block, 34) == 0xb131_c0f0 && W(block, 35) == 0x1626_3bc6
    ensures W(block, 36) == 0x4ebe_d41e && W(block, 37) == 0x6263_80a1 && W(block, 38) == 0x1626_3806 && W(block, 39) == 0x0000_18c0
    ensures W(block, 40) == 0xd2e1_38c4 && W(block, 41) == 0x0000_0f00 && W(block, 42) == 0x3afb_5079 && W(block, 43) == 0x898e_04e5
    ensures W(block, 44) == 0xe2ba_3c2b && W(block, 45) == 0x0000_60c0 && W(block, 46) == 0x053a_37cd && W(block, 47) == 0x7445_8547
  {
    Words16(block);
    assert Mingle(0x0000_00f0, 0x8589_8ec1, 0x0000_0030, 0xc2c4_c700) == 0x8e9a_9202;
    assert Mingle(0x93af_b507, 0x1626_3806, 0x8589_8e01, 0) == 0x0000_0600;
    assert Mingle(0x5898_e048, 0, 0, 0x0000_0030) == 0xb131_c0f0;
    assert Mingle(0x8e9a_9202, 0x0000_0180, 0x0000_0060, 0x8589_8e01) == 0x1626_3bc6;
    assert Mingle(0x0000_0600, 0x2c4c_700c, 0x0b13_1c03, 0) == 0x4ebe_d41e;
    assert Mingle(0xb131_c0f0, 0x0000_00f0, 0x0000_0030, 0x0000_0060) == 0x6263_80a1;
    assert Mingle(0x1626_3bc6, 0x93af_b507, 0x8589_8ec1, 0x0b13_1c03) == 0x1626_3806;
    assert Mingle(0x4ebe_d41e, 0x5898_e048, 0x1626_3806, 0x0000_0030) == 0x0000_18c0;
    assert Mingle(0x6263_80a1, 0x8e9a_9202, 0, 0x8589_8ec1) == 0xd2e1_38c4;
    assert Mingle(0x1626_3806, 0x0000_0600, 0x0000_0180, 0x1626_3806) == 0x0000_0f00;
    assert Mingle(0x0000_18c0, 0xb131_c0f0, 0x2c4c_700c, 0) == 0x3afb_5079;
    assert Mingle(0xd2e1_38c4, 0x1626_3bc6, 0x0000_00f0, 0x0000_0180) == 0x898e_04e5;
    assert Mingle(0x0000_0f00, 0x4ebe_d41e, 0x93af_b507, 0x2c4c_700c) == 0xe2ba_3c2b;
    assert Mingle(0x3afb_5079, 0x6263_80a1, 0x5898_e048, 0x0000_00f0) == 0x0000_60c0;
    assert Mingle(0x898e_04e5, 0x1626_3806, 0x8e9a_9202, 0x93af_b507) == 0x053a_37cd;
    assert Mingle(0xe2ba_3c2b, 0x0000_18c0, 0x0000_0600, 0x5898_e048) == 0x7445_8547;
  }

  lemma Words48(block: seq<Word>)
    requires IsAbc(block)
    ensures W(block, 48) == 0xda94_15ed && W(block, 49) == 0x2638_0a16 && W(block, 50) == 0x6263_83a1 && W(block, 51) == 0x4ebf_54de
    ensures W(block, 52) == 0x3835_b44b && W(block, 53) == 0x0000_f600 && W(block, 54) == 0x1e84_c7a3 && W(block, 55) == 0x98e0_4d98
    ensures W(block, 56) == 0x651d_16a0 && W(block, 57) == 0x6265_8ca1 && W(block, 58) == 0x4585_44d6 && W(block, 59) == 0x4458_4cb7
    ensures W(block, 60) == 0x7ba0_6619 && W(block, 61) == 0x6380_aea2 && W(block, 62) == 0x0ae5_5269 && W(block, 63) == 0x627b_49a1
  {
    Words32(block);
    assert Mingle(0x0000_60c0, 0xd2e1_38c4, 0xb131_c0f0, 0x8e9a_9202) == 0xda94_15ed;
    assert Mingle(0x053a_37cd, 0x0000_0f00, 0x1626_3bc6, 0x0000_0600) == 0x2638_0a16;
    assert Mingle(0x7445_8547, 0x3afb_5079, 0x4ebe_d41e, 0xb131_c0f0) == 0x6263_83a1;
    assert Mingle(0xda94_15ed, 0x898e_04e5, 0x6263_80a1, 0x1626_3bc6) == 0x4ebf_54de;
    assert Mingle(0x2638_0a16, 0xe2ba_3c2b, 0x1626_3806, 0x4ebe_d41e) == 0x3835_b44b;
    assert Mingle(0x6263_83a1, 0x0000_60c0, 0x0000_18c0, 0x6263_80a1) == 0x0000_f600;
    assert Mingle(0x4ebf_54de, 0x053a_37cd, 0xd2e1_38c4, 0x1626_3806) == 0x1e84_c7a3;
    assert Mingle(0x3835_b44b, 0x7445_8547, 0x0000_0f00, 0x0000_18c0) == 0x98e0_4d98;
    assert Mingle(0x0000_f600, 0xda94_15ed, 0x3afb_5079, 0xd2e1_38c4) == 0x651d_16a0;
    assert Mingle(0x1e84_c7a3, 0x2638_0a16, 0x898e_04e5, 0x0000_0f00) == 0x6265_8ca1;
    assert Mingle(0x98e0_4d98, 0x6263_83a1, 0xe2ba_3c2b, 0x3afb_5079) == 0x4585_44d6;
    assert Mingle(0x651d_16a0, 0x4ebf_54de, 0x0000_60c0, 0x898e_04e5) == 0x4458_4cb7;
    assert Mingle(0x6265_8ca1, 0x3835_b44b, 0x053a_37cd, 0xe2ba_3c2b) == 0x7ba0_6619;
    assert Mingle(0x4585_44d6, 0x0000_f600, 0x7445_8547, 0x0000_60c0) == 0x6380_aea2;
    assert Mingle(0x4458_4cb7, 0x1e84_c7a3, 0xda94_15ed, 0x053a_37cd) == 0x0ae5_5269;
    assert Mingle(0x7ba0_6619, 0x98e0_4d98, 0x2638_0a16, 0x7445_8547) == 0x627b_49a1;
  }

  lemma Words64(block: seq<Word>)
    requires IsAbc(block)
    ensures W(block, 64) == 0x7cd4_5c9d && W(block, 65) == 0x000f_0000 && W(block, 66) == 0xfb50_753a && W(block, 67) == 0xec67_65e8
    ensures W(block, 68) == 0xba3c_2be2 && W(block, 69) == 0x0060_c000 && W(block, 70) == 0x3a37_cd05 && W(block, 71) == 0x4585_46f4
    ensures W(block, 72) == 0xb859_9dd6 && W(block, 73) == 0x380a_1a26 && W(block, 74) == 0x01e0_2203 && W(block, 75) == 0xe7cc_3456
    ensures W(block, 76) == 0xe6e6_0b69 && W(block, 77) == 0x00f6_0a00 && W(block, 78) == 0x5795_ef4f && W(block, 79) == 0x822e_0879
  {
    Words48(block);
    assert Mingle(0x6380_aea2, 0x651d_16a0, 0x6263_83a1, 0xda94_15ed) == 0x7cd4_5c9d;
    assert Mingle(0x0ae5_5269, 0x6265_8ca1, 0x4ebf_54de, 0x2638_0a16) == 0x000f_0000;
    assert Mingle(0x627b_49a1, 0x4585_44d6, 0x3835_b44b, 0x6263_83a1) == 0xfb50_753a;
    assert Mingle(0x7cd4_5c9d, 0x4458_4cb7, 0x0000_f600, 0x4ebf_54de) == 0xec67_65e8;
    assert Mingle(0x000f_0000, 0x7ba0_6619, 0x1e84_c7a3, 0x3835_b44b) == 0xba3c_2be2;
    assert Mingle(0xfb50_753a, 0x6380_aea2, 0x98e0_4d98, 0x0000_f600) == 0x0060_c000;
    assert Mingle(0xec67_65e8, 0x0ae5_5269, 0x651d_16a0, 0x1e84_c7a3) == 0x3a37_cd05;
    assert Mingle(0xba3c_2be2, 0x627b_49a1, 0x6265_8ca1, 0x98e0_4d98) == 0x4585_46f4;
    assert Mingle(0x0060_c000, 0x7cd4_5c9d, 0x4585_44d6, 0x651d_16a0) == 0xb859_9dd6;
    assert Mingle(0x3a37_cd05, 0x000f_0000, 0x4458_4cb7, 0x6265_8ca1) == 0x380a_1a26;
    assert Mingle(0x4585_46f4, 0xfb50_753a, 0x7ba0_6619, 0x4585_44d6) == 0x01e0_2203;
    assert Mingle(0xb859_9dd6, 0xec67_65e8, 0x6380_aea2, 0x4458_4cb7) == 0xe7cc_3456;
    assert Mingle(0x380a_1a26, 0xba3c_2be2, 0x0ae5_5269, 0x7ba0_6619) == 0xe6e6_0b69;
    assert Mingle(0x01e0_2203, 0x0060_c000, 0x627b_49a1, 0x6380_aea2) == 0x00f6_0a00;
    assert Mingle(0xe7cc_3456, 0x3a37_cd05, 0x7cd4_5c9d, 0x0ae5_5269) == 0x5795_ef4f;
    assert Mingle(0xe6e6_0b69, 0x4585_46f4, 0x000f_0000, 0x627b_49a1) == 0x822e_0879;
  }

  // ----- The rounds, twenty at a time

  lemma OneRound(block: seq<Word>, t: nat, v: Vars, w: Word)
    requires |block| == 16 && Rounds(H0, block, t) == v && W(block, t) == w
    ensures Rounds(H0, block, t + 1) == Round(v, t, w)
  {}

  lemma Rounds20(block: seq<Word>)
    requires IsAbc(block)
    ensures Rounds(H0, block, 20) == Vars(0xfd9e_1d7d, 0xdc64_901d, 0x20aa_99ca, 0xd3a4_9608, 0xc82f_758b)
  {
    Words0(block);
    Words16(block);
    OneRound(block, 0, Vars(0x6745_2301, 0xefcd_ab89, 0x98ba_dcfe, 0x1032_5476, 0xc3d2_e1f0), 0x6162_6380);
    assert Round(Vars(0x6745_2301, 0xefcd_ab89, 0x98ba_dcfe, 0x1032_5476, 0xc3d2_e1f0), 0, 0x6162_6380) == Vars(0x0116_fc33, 0x6745_2301, 0x7bf3_6ae2, 0x98ba_dcfe, 0x1032_5476);
    OneRound(block, 1, Vars(0x0116_fc33, 0x6745_2301, 0x7bf3_6ae2, 0x98ba_dcfe, 0x1032_5476), 0);
    assert Round(Vars(0x0116_fc33, 0x6745_2301, 0x7bf3_6ae2, 0x98ba_dcfe, 0x1032_5476), 1, 0) == Vars(0x8990_536d, 0x0116_fc33, 0x59d1_48c0, 0x7bf3_6ae2, 0x98ba_dcfe);
    OneRound(block, 2, Vars(0x8990_536d, 0x0116_fc33, 0x59d1_48c0, 0x7bf3_6ae2, 0x98ba_dcfe), 0);
    assert Round(Vars(0x8990_536d, 0x0116_fc33, 0x59d1_48c0, 0x7bf3_6ae2, 0x98ba_dcfe), 2, 0) == Vars(0xa139_0f08, 0x8990_536d, 0xc045_bf0c, 0x59d1_48c0, 0x7bf3_6ae2);
    OneRound(block, 3, Vars(0xa139_0f08, 0x8990_536d, 0xc045_bf0c, 0x59d1_48c0, 0x7bf3_6ae2), 0);
    assert Round(Vars(0xa139_0f08, 0x8990_536d, 0xc045_bf0c, 0x59d1_48c0, 0x7bf3_6ae2), 3, 0) == Vars(0xcdd8_e11b, 0xa139_0f08, 0x6264_14db, 0xc045_bf0c, 0x59d1_48c0);
    OneRound(block, 4, Vars(0xcdd8_e11b, 0xa139_0f08, 0x6264_14db, 0xc045_bf0c, 0x59d1_48c0), 0);
    assert Round(Vars(0xcdd8_e11b, 0xa139_0f08, 0x6264_14db, 0xc045_bf0c, 0x59d1_48c0), 4, 0) == Vars(0xcfd4_99de, 0xcdd8_e11b, 0x284e_43c2, 0x6264_14db, 0xc045_bf0c);
    OneRound(block, 5, Vars(0xcfd4_99de, 0xcdd8_e11b, 0x284e_43c2, 0x6264_14db, 0xc045_bf0c), 0);
    assert Round(Vars(0xcfd4_99de, 0xcdd8_e11b, 0x284e_43c2, 0x6264_14db, 0xc045_bf0c), 5, 0) == Vars(0x3fc7_ca40, 0xcfd4_99de, 0xf376_3846, 0x284e_43c2, 0x6264_14db);
    OneRound(block, 6, Vars(0x3fc7_ca40, 0xcfd4_99de, 0xf376_3846, 0x284e_43c2, 0x6264_14db), 0);
    assert Round(Vars(0x3fc7_ca40, 0xcfd4_99de, 0xf376_3846, 0x284e_43c2, 0x6264_14db), 6, 0) == Vars(0x993e_30c1, 0x3fc7_ca40, 0xb3f5_2677, 0xf376_3846, 0x284e_43c2);
    OneRound(block, 7, Vars(0x993e_30c1, 0x3fc7_ca40, 0xb3f5_2677, 0xf376_3846, 0x284e_43c2), 0);
    assert Round(Vars(0x993e_30c1, 0x3fc7_ca40, 0xb3f5_2677, 0xf376_3846, 0x284e_43c2), 7, 0) == Vars(0x9e8c_07d4, 0x993e_30c1, 0x0ff1_f290, 0xb3f5_2677, 0xf376_3846);
    OneRound(block, 8, Vars(0x9e8c_07d4, 0x993e_30c1, 0x0ff1_f290, 0xb3f5_2677, 0xf376_3846), 0);
    assert Round(Vars(0x9e8c_07d4, 0x993e_30c1, 0x0ff1_f290, 0xb3f5_2677, 0xf376_3846), 8, 0) == Vars(0x4b6a_e328, 0x9e8c_07d4, 0x664f_8c30, 0x0ff1_f290, 0xb3f5_2677);
    OneRound(block, 9, Vars(0x4b6a_e328, 0x9e8c_07d4, 0x664f_8c30, 0x0ff1_f290, 0xb3f5_2677), 0);
    assert Round(Vars(0x4b6a_e328, 0x9e8c_07d4, 0x664f_8c30, 0x0ff1_f290, 0xb3f5_2677), 9, 0) == Vars(0x8351_f929, 0x4b6a_e328, 0x27a3_01f5, 0x664f_8c30, 0x0ff1_f290);
    OneRound(block, 10, Vars(0x8351_f929, 0x4b6a_e328, 0x27a3_01f5, 0x664f_8c30, 0x0ff1_f290), 0);
    assert Round(Vars(0x8351_f929, 0x4b6a_e328, 0x27a3_01f5, 0x664f_8c30, 0x0ff1_f290), 10, 0) == Vars(0xfbda_9e89, 0x8351_f929, 0x12da_b8ca, 0x27a3_01f5, 0x664f_8c30);
    OneRound(block, 11, Vars(0xfbda_9e89, 0x8351_f929, 0x12da_b8ca, 0x27a3_01f5, 0x664f_8c30), 0);
    assert Round(Vars(0xfbda_9e89, 0x8351_f929, 0x12da_b8ca, 0x27a3_01f5, 0x664f_8c30), 11, 0) == Vars(0x6318_8fe4, 0xfbda_9e89, 0x60d4_7e4a, 0x12da_b8ca, 0x27a3_01f5);
    OneRound(block, 12, Vars(0x6318_8fe4, 0xfbda_9e89, 0x60d4_7e4a, 0x12da_b8ca, 0x27a3_01f5), 0);
    assert Round(Vars(0x6318_8fe4, 0xfbda_9e89, 0x60d4_7e4a, 0x12da_b8ca, 0x27a3_01f5), 12, 0) == Vars(0x4607_b664, 0x6318_8fe4, 0x7ef6_a7a2, 0x60d4_7e4a, 0x12da_b8ca);
    OneRound(block, 13, Vars(0x4607_b664, 0x6318_8fe4, 0x7ef6_a7a2, 0x60d4_7e4a, 0x12da_b8ca), 0);
    assert Round(Vars(0x4607_b664, 0x6318_8fe4, 0x7ef6_a7a2, 0x60d4_7e4a, 0x12da_b8ca), 13, 0) == Vars(0x9128_f695, 0x4607_b664, 0x18c6_23f9, 0x7ef6_a7a2, 0x60d4_7e4a);
    OneRound(block, 14, Vars(0x9128_f695, 0x4607_b664, 0x18c6_23f9, 0x7ef6_a7a2, 0x60d4_7e4a), 0);
    assert Round(Vars(0x9128_f695, 0x4607_b664, 0x18c6_23f9, 0x7ef6_a7a2, 0x60d4_7e4a), 14, 0) == Vars(0x196b_ee77, 0x9128_f695, 0x1181_ed99, 0x18c6_23f9, 0x7ef6_a7a2);
    OneRound(block, 15, Vars(0x196b_ee77, 0x9128_f695, 0x1181_ed99, 0x18c6_23f9, 0x7ef6_a7a2), 0x0000_0018);
    assert Round(Vars(0x196b_ee77, 0x9128_f695, 0x1181_ed99, 0x18c6_23f9, 0x7ef6_a7a2), 15, 0x0000_0018) == Vars(0x20bd_d62f, 0x196b_ee77, 0x644a_3da5, 0x1181_ed99, 0x18c6_23f9);
    OneRound(block, 16, Vars(0x20bd_d62f, 0x196b_ee77, 0x644a_3da5, 0x1181_ed99, 0x18c6_23f9), 0xc2c4_c700);
    assert Round(Vars(0x20bd_d62f, 0x196b_ee77, 0x644a_3da5, 0x1181_ed99, 0x18c6_23f9), 16, 0xc2c4_c700) == Vars(0x4e92_5823, 0x20bd_d62f, 0xc65a_fb9d, 0x644a_3da5, 0x1181_ed99);
    OneRound(block, 17, Vars(0x4e92_5823, 0x20bd_d62f, 0xc65a_fb9d, 0x644a_3da5, 0x1181_ed99), 0);
    assert Round(Vars(0x4e92_5823, 0x20bd_d62f, 0xc65a_fb9d, 0x644a_3da5, 0x1181_ed99), 17, 0) == Vars(0x82aa_6728, 0x4e92_5823, 0xc82f_758b, 0xc65a_fb9d, 0x644a_3da5);
    OneRound(block, 18, Vars(0x82aa_6728, 0x4e92_5823, 0xc82f_758b, 0xc65a_fb9d, 0x644a_3da5), 0x0000_0030);
    assert Round(Vars(0x82aa_6728, 0x4e92_5823, 0xc82f_758b, 0xc65a_fb9d, 0x644a_3da5), 18, 0x0000_0030) == Vars(0xdc64_901d, 0x82aa_6728, 0xd3a4_9608, 0xc82f_758b, 0xc65a_fb9d);
    OneRound(block, 19, Vars(0xdc64_901d, 0x82aa_6728, 0xd3a4_9608, 0xc82f_758b, 0xc65a_fb9d), 0x8589_8e01);
    assert Round(Vars(0xdc64_901d, 0x82aa_6728, 0xd3a4_9608, 0xc82f_758b, 0xc65a_fb9d), 19, 0x8589_8e01) == Vars(0xfd9e_1d7d, 0xdc64_901d, 0x20aa_99ca, 0xd3a4_9608, 0xc82f_758b);
  }

  lemma Rounds40(block: seq<Word>)
    requires IsAbc(block)
    ensures Rounds(H0, block, 40) == Vars(0x32de_1cba, 0x4c98_6405, 0xf718_e5cf, 0x03d4_47f6, 0xf72e_ec32)
  {
    Rounds20(block);
    Words16(block);
    Words32(block);
    OneRound(block, 20, Vars(0xfd9e_1d7d, 0xdc64_901d, 0x20aa_99ca, 0xd3a4_9608, 0xc82f_758b), 0);
    assert Round(Vars(0xfd9e_1d7d, 0xdc64_901d, 0x20aa_99ca, 0xd3a4_9608, 0xc82f_758b), 20, 0) == Vars(0x1a37_b0ca, 0xfd9e_1d7d, 0x7719_2407, 0x20aa_99ca, 0xd3a4_9608);
    OneRound(block, 21, Vars(0x1a37_b0ca, 0xfd9e_1d7d, 0x7719_2407, 0x20aa_99ca, 0xd3a4_9608), 0x0000_0060);
    assert Round(Vars(0x1a37_b0ca, 0xfd9e_1d7d, 0x7719_2407, 0x20aa_99ca, 0xd3a4_9608), 21, 0x0000_0060) == Vars(0x33a2_3bfc, 0x1a37_b0ca, 0x7f67_875f, 0x7719_2407, 0x20aa_99ca);
    OneRound(block, 22, Vars(0x33a2_3bfc, 0x1a37_b0ca, 0x7f67_875f, 0x7719_2407, 0x20aa_99ca), 0x0b13_1c03);
    assert Round(Vars(0x33a2_3bfc, 0x1a37_b0ca, 0x7f67_875f, 0x7719_2407, 0x20aa_99ca), 22, 0x0b13_1c03) == Vars(0x2128_3486, 0x33a2_3bfc, 0x868d_ec32, 0x7f67_875f, 0x7719_2407);
    OneRound(block, 23, Vars(0x2128_3486, 0x33a2_3bfc, 0x868d_ec32, 0x7f67_875f, 0x7719_2407), 0x0000_0030);
    assert Round(Vars(0x2128_3486, 0x33a2_3bfc, 0x868d_ec32, 0x7f67_875f, 0x7719_2407), 23, 0x0000_0030) == Vars(0xd541_f12d, 0x2128_3486, 0x0ce8_8eff, 0x868d_ec32, 0x7f67_875f);
    OneRound(block, 24, Vars(0xd541_f12d, 0x2128_3486, 0x0ce8_8eff, 0x868d_ec32, 0x7f67_875f), 0x8589_8ec1);
    assert Round(Vars(0xd541_f12d, 0x2128_3486, 0x0ce8_8eff, 0x868d_ec32, 0x7f67_875f), 24, 0x8589_8ec1) == Vars(0xc756_7dc6, 0xd541_f12d, 0x884a_0d21, 0x0ce8_8eff, 0x868d_ec32);
    OneRound(block, 25, Vars(0xc756_7dc6, 0xd541_f12d, 0x884a_0d21, 0x0ce8_8eff, 0x868d_ec32), 0x1626_3806);
    assert Round(Vars(0xc756_7dc6, 0xd541_f12d, 0x884a_0d21, 0x0ce8_8eff, 0x868d_ec32), 25, 0x1626_3806) == Vars(0x4841_3ba4, 0xc756_7dc6, 0x7550_7c4b, 0x884a_0d21, 0x0ce8_8eff);
    OneRound(block, 26, Vars(0x4841_3ba4, 0xc756_7dc6, 0x7550_7c4b, 0x884a_0d21, 0x0ce8_8eff), 0);
    assert Round(Vars(0x4841_3ba4, 0xc756_7dc6, 0x7550_7c4b, 0x884a_0d21, 0x0ce8_8eff), 26, 0) == Vars(0xbe35_fbd5, 0x4841_3ba4, 0xb1d5_9f71, 0x7550_7c4b, 0x884a_0d21);
    OneRound(block, 27, Vars(0xbe35_fbd5, 0x4841_3ba4, 0xb1d5_9f71, 0x7550_7c4b, 0x884a_0d21), 0x0000_0180);
    assert Round(Vars(0xbe35_fbd5, 0x4841_3ba4, 0xb1d5_9f71, 0x7550_7c4b, 0x884a_0d21), 27, 0x0000_0180) == Vars(0x4aa8_4d97, 0xbe35_fbd5, 0x1210_4ee9, 0xb1d5_9f71, 0x7550_7c4b);
    OneRound(block, 28, Vars(0x4aa8_4d97, 0xbe35_fbd5, 0x1210_4ee9, 0xb1d5_9f71, 0x7550_7c4b), 0x2c4c_700c);
    assert Round(Vars(0x4aa8_4d97, 0xbe35_fbd5, 0x1210_4ee9, 0xb1d5_9f71, 0x7550_7c4b), 28, 0x2c4c_700c) == Vars(0x8370_b52e, 0x4aa8_4d97, 0x6f8d_7ef5, 0x1210_4ee9, 0xb1d5_9f71);
    OneRound(block, 29, Vars(0x8370_b52e, 0x4aa8_4d97, 0x6f8d_7ef5, 0x1210_4ee9, 0xb1d5_9f71), 0x0000_00f0);
    assert Round(Vars(0x8370_b52e, 0x4aa8_4d97, 0x6f8d_7ef5, 0x1210_4ee9, 0xb1d5_9f71), 29, 0x0000_00f0) == Vars(0xc5fb_af5d, 0x8370_b52e, 0xd2aa_1365, 0x6f8d_7ef5, 0x1210_4ee9);
    OneRound(block, 30, Vars(0xc5fb_af5d, 0x8370_b52e, 0xd2aa_1365, 0x6f8d_7ef5, 0x1210_4ee9), 0x93af_b507);
    assert Round(Vars(0xc5fb_af5d, 0x8370_b52e, 0xd2aa_1365, 0x6f8d_7ef5, 0x1210_4ee9), 30, 0x93af_b507) == Vars(0x1267_b407, 0xc5fb_af5d, 0xa0dc_2d4b, 0xd2aa_1365, 0x6f8d_7ef5);
    OneRound(block, 31, Vars(0x1267_b407, 0xc5fb_af5d, 0xa0dc_2d4b, 0xd2aa_1365, 0x6f8d_7ef5), 0x5898_e048);
    assert Round(Vars(0x1267_b407, 0xc5fb_af5d, 0xa0dc_2d4b, 0xd2aa_1365, 0x6f8d_7ef5), 31, 0x5898_e048) == Vars(0x3b84_5d33, 0x1267_b407, 0x717e_ebd7, 0xa0dc_2d4b, 0xd2aa_1365);
    OneRound(block, 32, Vars(0x3b84_5d33, 0x1267_b407, 0x717e_ebd7, 0xa0dc_2d4b, 0xd2aa_1365), 0x8e9a_9202);
    assert Round(Vars(0x3b84_5d33, 0x1267_b407, 0x717e_ebd7, 0xa0dc_2d4b, 0xd2aa_1365), 32, 0x8e9a_9202) == Vars(0x046f_aa0a, 0x3b84_5d33, 0xc499_ed01, 0x717e_ebd7, 0xa0dc_2d4b);
    OneRound(block, 33, Vars(0x046f_aa0a, 0x3b84_5d33, 0xc499_ed01, 0x717e_ebd7, 0xa0dc_2d4b), 0x0000_0600);
    assert Round(Vars(0x046f_aa0a, 0x3b84_5d33, 0xc499_ed01, 0x717e_ebd7, 0xa0dc_2d4b), 33, 0x0000_0600) == Vars(0x2c0e_bc11, 0x046f_aa0a, 0xcee1_174c, 0xc499_ed01, 0x717e_ebd7);
    OneRound(block, 34, Vars(0x2c0e_bc11, 0x046f_aa0a, 0xcee1_174c, 0xc499_ed01, 0x717e_ebd7), 0xb131_c0f0);
    assert Round(Vars(0x2c0e_bc11, 0x046f_aa0a, 0xcee1_174c, 0xc499_ed01, 0x717e_ebd7), 34, 0xb131_c0f0) == Vars(0x2179_6ad4, 0x2c0e_bc11, 0x811b_ea82, 0xcee1_174c, 0xc499_ed01);
    OneRound(block, 35, Vars(0x2179_6ad4, 0x2c0e_bc11, 0x811b_ea82, 0xcee1_174c, 0xc499_ed01), 0x1626_3bc6);
    assert Round(Vars(0x2179_6ad4, 0x2c0e_bc11, 0x811b_ea82, 0xcee1_174c, 0xc499_ed01), 35, 0x1626_3bc6) == Vars(0xdcbb_b0cb, 0x2179_6ad4, 0x4b03_af04, 0x811b_ea82, 0xcee1_174c);
    OneRound(block, 36, Vars(0xdcbb_b0cb, 0x2179_6ad4, 0x4b03_af04, 0x811b_ea82, 0xcee1_174c), 0x4ebe_d41e);
    assert Round(Vars(0xdcbb_b0cb, 0x2179_6ad4, 0x4b03_af04, 0x811b_ea82, 0xcee1_174c), 36, 0x4ebe_d41e) == Vars(0x0f51_1fd8, 0xdcbb_b0cb, 0x085e_5ab5, 0x4b03_af04, 0x811b_ea82);
    OneRound(block, 37, Vars(0x0f51_1fd8, 0xdcbb_b0cb, 0x085e_5ab5, 0x4b03_af04, 0x811b_ea82), 0x6263_80a1);
    assert Round(Vars(0x0f51_1fd8, 0xdcbb_b0cb, 0x085e_5ab5, 0x4b03_af04, 0x811b_ea82), 37, 0x6263_80a1) == Vars(0xdc63_973f, 0x0f51_1fd8, 0xf72e_ec32, 0x085e_5ab5, 0x4b03_af04);
    OneRound(block, 38, Vars(0xdc63_973f, 0x0f51_1fd8, 0xf72e_ec32, 0x085e_5ab5, 0x4b03_af04), 0x1626_3806);
    assert Round(Vars(0xdc63_973f, 0x0f51_1fd8, 0xf72e_ec32, 0x085e_5ab5, 0x4b03_af04), 38, 0x1626_3806) == Vars(0x4c98_6405, 0xdc63_973f, 0x03d4_47f6, 0xf72e_ec32, 0x085e_5ab5);
    OneRound(block, 39, Vars(0x4c98_6405, 0xdc63_973f, 0x03d4_47f6, 0xf72e_ec32, 0x085e_5ab5), 0x0000_18c0);
    assert Round(Vars(0x4c98_6405, 0xdc63_973f, 0x03d4_47f6, 0xf72e_ec32, 0x085e_5ab5), 39, 0x0000_18c0) == Vars(0x32de_1cba, 0x4c98_6405, 0xf718_e5cf, 0x03d4_47f6, 0xf72e_ec32);
  }

  lemma Rounds60(block: seq<Word>)
    requires IsAbc(block)
    ensures Rounds(H0, block, 60) == Vars(0x3f52_de5a, 0x09d7_85fd, 0x3498_bfd4, 0xf211_824f, 0xd799_15ab)
  {
    Rounds40(block);
    Words32(block);
    Words48(block);
    OneRound(block, 40, Vars(0x32de_1cba, 0x4c98_6405, 0xf718_e5cf, 0x03d4_47f6, 0xf72e_ec32), 0xd2e1_38c4);
    assert Round(Vars(0x32de_1cba, 0x4c98_6405, 0xf718_e5cf, 0x03d4_47f6, 0xf72e_ec32), 40, 0xd2e1_38c4) == Vars(0xfc87_dedf, 0x32de_1cba, 0x5326_1901, 0xf718_e5cf, 0x03d4_47f6);
    OneRound(block, 41, Vars(0xfc87_dedf, 0x32de_1cba, 0x5326_1901, 0xf718_e5cf, 0x03d4_47f6), 0x0000_0f00);
    assert Round(Vars(0xfc87_dedf, 0x32de_1cba, 0x5326_1901, 0xf718_e5cf, 0x03d4_47f6), 41, 0x0000_0f00) == Vars(0x970a_0d5c, 0xfc87_dedf, 0x8cb7_872e, 0x5326_1901, 0xf718_e5cf);
    OneRound(block, 42, Vars(0x970a_0d5c, 0xfc87_dedf, 0x8cb7_872e, 0x5326_1901, 0xf718_e5cf), 0x3afb_5079);
    assert Round(Vars(0x970a_0d5c, 0xfc87_dedf, 0x8cb7_872e, 0x5326_1901, 0xf718_e5cf), 42, 0x3afb_5079) == Vars(0x7f19_3dc5, 0x970a_0d5c, 0xff21_f7b7, 0x8cb7_872e, 0x5326_1901);
    OneRound(block, 43, Vars(0x7f19_3dc5, 0x970a_0d5c, 0xff21_f7b7, 0x8cb7_872e, 0x5326_1901), 0x898e_04e5);
    assert Round(Vars(0x7f19_3dc5, 0x970a_0d5c, 0xff21_f7b7, 0x8cb7_872e, 0x5326_1901), 43, 0x898e_04e5) == Vars(0xee1b_1aaf, 0x7f19_3dc5, 0x25c2_8357, 0xff21_f7b7, 0x8cb7_872e);
    OneRound(block, 44, Vars(0xee1b_1aaf, 0x7f19_3dc5, 0x25c2_8357, 0xff21_f7b7, 0x8cb7_872e), 0xe2ba_3c2b);
    assert Round(Vars(0xee1b_1aaf, 0x7f19_3dc5, 0x25c2_8357, 0xff21_f7b7, 0x8cb7_872e), 44, 0xe2ba_3c2b) == Vars(0x40f2_8e09, 0xee1b_1aaf, 0x5fc6_4f71, 0x25c2_8357, 0xff21_f7b7);
    OneRound(block, 45, Vars(0x40f2_8e09, 0xee1b_1aaf, 0x5fc6_4f71, 0x25c2_8357, 0xff21_f7b7), 0x0000_60c0);
    assert Round(Vars(0x40f2_8e09, 0xee1b_1aaf, 0x5fc6_4f71, 0x25c2_8357, 0xff21_f7b7), 45, 0x0000_60c0) == Vars(0x1c51_e1f2, 0x40f2_8e09, 0xfb86_c6ab, 0x5fc6_4f71, 0x25c2_8357);
    OneRound(block, 46, Vars(0x1c51_e1f2, 0x40f2_8e09, 0xfb86_c6ab, 0x5fc6_4f71, 0x25c2_8357), 0x053a_37cd);
    assert Round(Vars(0x1c51_e1f2, 0x40f2_8e09, 0xfb86_c6ab, 0x5fc6_4f71, 0x25c2_8357), 46, 0x053a_37cd) == Vars(0xa01b_846c, 0x1c51_e1f2, 0x503c_a382, 0xfb86_c6ab, 0x5fc6_4f71);
    OneRound(block, 47, Vars(0xa01b_846c, 0x1c51_e1f2, 0x503c_a382, 0xfb86_c6ab, 0x5fc6_4f71), 0x7445_8547);
    assert Round(Vars(0xa01b_846c, 0x1c51_e1f2, 0x503c_a382, 0xfb86_c6ab, 0x5fc6_4f71), 47, 0x7445_8547) == Vars(0xbead_02ca, 0xa01b_846c, 0x8714_787c, 0x503c_a382, 0xfb86_c6ab);
    OneRound(block, 48, Vars(0xbead_02ca, 0xa01b_846c, 0x8714_787c, 0x503c_a382, 0xfb86_c6ab), 0xda94_15ed);
    assert Round(Vars(0xbead_02ca, 0xa01b_846c, 0x8714_787c, 0x503c_a382, 0xfb86_c6ab), 48, 0xda94_15ed) == Vars(0xbaf3_9337, 0xbead_02ca, 0x2806_e11b, 0x8714_787c, 0x503c_a382);
    OneRound(block, 49, Vars(0xbaf3_9337, 0xbead_02ca, 0x2806_e11b, 0x8714_787c, 0x503c_a382), 0x2638_0a16);
    assert Round(Vars(0xbaf3_9337, 0xbead_02ca, 0x2806_e11b, 0x8714_787c, 0x503c_a382), 49, 0x2638_0a16) == Vars(0x1207_31c5, 0xbaf3_9337, 0xafab_40b2, 0x2806_e11b, 0x8714_787c);
    OneRound(block, 50, Vars(0x1207_31c5, 0xbaf3_9337, 0xafab_40b2, 0x2806_e11b, 0x8714_787c), 0x6263_83a1);
    assert Round(Vars(0x1207_31c5, 0xbaf3_9337, 0xafab_40b2, 0x2806_e11b, 0x8714_787c), 50, 0x6263_83a1) == Vars(0x641d_b2ce, 0x1207_31c5, 0xeebc_e4cd, 0xafab_40b2, 0x2806_e11b);
    OneRound(block, 51, Vars(0x641d_b2ce, 0x1207_31c5, 0xeebc_e4cd, 0xafab_40b2, 0x2806_e11b), 0x4ebf_54de);
    assert Round(Vars(0x641d_b2ce, 0x1207_31c5, 0xeebc_e4cd, 0xafab_40b2, 0x2806_e11b), 51, 0x4ebf_54de) == Vars(0x3847_ad66, 0x641d_b2ce, 0x4481_cc71, 0xeebc_e4cd, 0xafab_40b2);
    OneRound(block, 52, Vars(0x3847_ad66, 0x641d_b2ce, 0x4481_cc71, 0xeebc_e4cd, 0xafab_40b2), 0x3835_b44b);
    assert Round(Vars(0x3847_ad66, 0x641d_b2ce, 0x4481_cc71, 0xeebc_e4cd, 0xafab_40b2), 52, 0x3835_b44b) == Vars(0xe490_436d, 0x3847_ad66, 0x9907_6cb3, 0x4481_cc71, 0xeebc_e4cd);
    OneRound(block, 53, Vars(0xe490_436d, 0x3847_ad66, 0x9907_6cb3, 0x4481_cc71, 0xeebc_e4cd), 0x0000_f600);
    assert Round(Vars(0xe490_436d, 0x3847_ad66, 0x9907_6cb3, 0x4481_cc71, 0xeebc_e4cd), 53, 0x0000_f600) == Vars(0x27e9_f1d8, 0xe490_436d, 0x8e11_eb59, 0x9907_6cb3, 0x4481_cc71);
    OneRound(block, 54, Vars(0x27e9_f1d8, 0xe490_436d, 0x8e11_eb59, 0x9907_6cb3, 0x4481_cc71), 0x1e84_c7a3);
    assert Round(Vars(0x27e9_f1d8, 0xe490_436d, 0x8e11_eb59, 0x9907_6cb3, 0x4481_cc71), 54, 0x1e84_c7a3) == Vars(0x7b71_f76d, 0x27e9_f1d8, 0x7924_10db, 0x8e11_eb59, 0x9907_6cb3);
    OneRound(block, 55, Vars(0x7b71_f76d, 0x27e9_f1d8, 0x7924_10db, 0x8e11_eb59, 0x9907_6cb3), 0x98e0_4d98);
    assert Round(Vars(0x7b71_f76d, 0x27e9_f1d8, 0x7924_10db, 0x8e11_eb59, 0x9907_6cb3), 55, 0x98e0_4d98) == Vars(0x5e64_56af, 0x7b71_f76d, 0x09fa_7c76, 0x7924_10db, 0x8e11_eb59);
    OneRound(block, 56, Vars(0x5e64_56af, 0x7b71_f76d, 0x09fa_7c76, 0x7924_10db, 0x8e11_eb59), 0x651d_16a0);
    assert Round(Vars(0x5e64_56af, 0x7b71_f76d, 0x09fa_7c76, 0x7924_10db, 0x8e11_eb59), 56, 0x651d_16a0) == Vars(0xc846_093f, 0x5e64_56af, 0x5edc_7ddb, 0x09fa_7c76, 0x7924_10db);
    OneRound(block, 57, Vars(0xc846_093f, 0x5e64_56af, 0x5edc_7ddb, 0x09fa_7c76, 0x7924_10db), 0x6265_8ca1);
    assert Round(Vars(0xc846_093f, 0x5e64_56af, 0x5edc_7ddb, 0x09fa_7c76, 0x7924_10db), 57, 0x6265_8ca1) == Vars(0xd262_ff50, 0xc846_093f, 0xd799_15ab, 0x5edc_7ddb, 0x09fa_7c76);
    OneRound(block, 58, Vars(0xd262_ff50, 0xc846_093f, 0xd799_15ab, 0x5edc_7ddb, 0x09fa_7c76), 0x4585_44d6);
    assert Round(Vars(0xd262_ff50, 0xc846_093f, 0xd799_15ab, 0x5edc_7ddb, 0x09fa_7c76), 58, 0x4585_44d6) == Vars(0x09d7_85fd, 0xd262_ff50, 0xf211_824f, 0xd799_15ab, 0x5edc_7ddb);
    OneRound(block, 59, Vars(0x09d7_85fd, 0xd262_ff50, 0xf211_824f, 0xd799_15ab, 0x5edc_7ddb), 0x4458_4cb7);
    assert Round(Vars(0x09d7_85fd, 0xd262_ff50, 0xf211_824f, 0xd799_15ab, 0x5edc_7ddb), 59, 0x4458_4cb7) == Vars(0x3f52_de5a, 0x09d7_85fd, 0x3498_bfd4, 0xf211_824f, 0xd799_15ab);
  }

  lemma Rounds80(block: seq<Word>)
    requires IsAbc(block)
    ensures Rounds(H0, block, 80) == Vars(0x4254_1b35, 0x5738_d5e1, 0x2183_4873, 0x681e_6df6, 0xd8fd_f6ad)
  {
    Rounds60(block);
    Words48(block);
    Words64(block);
    OneRound(block, 60, Vars(0x3f52_de5a, 0x09d7_85fd, 0x3498_bfd4, 0xf211_824f, 0xd799_15ab), 0x7ba0_6619);
    assert Round(Vars(0x3f52_de5a, 0x09d7_85fd, 0x3498_bfd4, 0xf211_824f, 0xd799_15ab), 60, 0x7ba0_6619) == Vars(0xd756_c147, 0x3f52_de5a, 0x4275_e17f, 0x3498_bfd4, 0xf211_824f);
    OneRound(block, 61, Vars(0xd756_c147, 0x3f52_de5a, 0x4275_e17f, 0x3498_bfd4, 0xf211_824f), 0x6380_aea2);
    assert Round(Vars(0xd756_c147, 0x3f52_de5a, 0x4275_e17f, 0x3498_bfd4, 0xf211_824f), 61, 0x6380_aea2) == Vars(0x548c_9cb2, 0xd756_c147, 0x8fd4_b796, 0x4275_e17f, 0x3498_bfd4);
    OneRound(block, 62, Vars(0x548c_9cb2, 0xd756_c147, 0x8fd4_b796, 0x4275_e17f, 0x3498_bfd4), 0x0ae5_5269);
    assert Round(Vars(0x548c_9cb2, 0xd756_c147, 0x8fd4_b796, 0x4275_e17f, 0x3498_bfd4), 62, 0x0ae5_5269) == Vars(0xb66c_020b, 0x548c_9cb2, 0xf5d5_b051, 0x8fd4_b796, 0x4275_e17f);
    OneRound(block, 63, Vars(0xb66c_020b, 0x548c_9cb2, 0xf5d5_b051, 0x8fd4_b796, 0x4275_e17f), 0x627b_49a1);
    assert Round(Vars(0xb66c_020b, 0x548c_9cb2, 0xf5d5_b051, 0x8fd4_b796, 0x4275_e17f), 63, 0x627b_49a1) == Vars(0x6b61_c9e1, 0xb66c_020b, 0x9523_272c, 0xf5d5_b051, 0x8fd4_b796);
    OneRound(block, 64, Vars(0x6b61_c9e1, 0xb66c_020b, 0x9523_272c, 0xf5d5_b051, 0x8fd4_b796), 0x7cd4_5c9d);
    assert Round(Vars(0x6b61_c9e1, 0xb66c_020b, 0x9523_272c, 0xf5d5_b051, 0x8fd4_b796), 64, 0x7cd4_5c9d) == Vars(0x19df_a7ac, 0x6b61_c9e1, 0xed9b_0082, 0x9523_272c, 0xf5d5_b051);
    OneRound(block, 65, Vars(0x19df_a7ac, 0x6b61_c9e1, 0xed9b_0082, 0x9523_272c, 0xf5d5_b051), 0x000f_0000);
    assert Round(Vars(0x19df_a7ac, 0x6b61_c9e1, 0xed9b_0082, 0x9523_272c, 0xf5d5_b051), 65, 0x000f_0000) == Vars(0x1016_55f9, 0x19df_a7ac, 0x5ad8_7278, 0xed9b_0082, 0x9523_272c);
    OneRound(block, 66, Vars(0x1016_55f9, 0x19df_a7ac, 0x5ad8_7278, 0xed9b_0082, 0x9523_272c), 0xfb50_753a);
    assert Round(Vars(0x1016_55f9, 0x19df_a7ac, 0x5ad8_7278, 0xed9b_0082, 0x9523_272c), 66, 0xfb50_753a) == Vars(0x0c3d_f2b4, 0x1016_55f9, 0x0677_e9eb, 0x5ad8_7278, 0xed9b_0082);
    OneRound(block, 67, Vars(0x0c3d_f2b4, 0x1016_55f9, 0x0677_e9eb, 0x5ad8_7278, 0xed9b_0082), 0xec67_65e8);
    assert Round(Vars(0x0c3d_f2b4, 0x1016_55f9, 0x0677_e9eb, 0x5ad8_7278, 0xed9b_0082), 67, 0xec67_65e8) == Vars(0x78dd_4d2b, 0x0c3d_f2b4, 0x4405_957e, 0x0677_e9eb, 0x5ad8_7278);
    OneRound(block, 68, Vars(0x78dd_4d2b, 0x0c3d_f2b4, 0x4405_957e, 0x0677_e9eb, 0x5ad8_7278), 0xba3c_2be2);
    assert Round(Vars(0x78dd_4d2b, 0x0c3d_f2b4, 0x4405_957e, 0x0677_e9eb, 0x5ad8_7278), 68, 0xba3c_2be2) == Vars(0x4970_93c0, 0x78dd_4d2b, 0x030f_7cad, 0x4405_957e, 0x0677_e9eb);
    OneRound(block, 69, Vars(0x4970_93c0, 0x78dd_4d2b, 0x030f_7cad, 0x4405_957e, 0x0677_e9eb), 0x0060_c000);
    assert Round(Vars(0x4970_93c0, 0x78dd_4d2b, 0x030f_7cad, 0x4405_957e, 0x0677_e9eb), 69, 0x0060_c000) == Vars(0x3f25_88c2, 0x4970_93c0, 0xde37_534a, 0x030f_7cad, 0x4405_957e);
    OneRound(block, 70, Vars(0x3f25_88c2, 0x4970_93c0, 0xde37_534a, 0x030f_7cad, 0x4405_957e), 0x3a37_cd05);
    assert Round(Vars(0x3f25_88c2, 0x4970_93c0, 0xde37_534a, 0x030f_7cad, 0x4405_957e), 70, 0x3a37_cd05) == Vars(0xc199_f8c7, 0x3f25_88c2, 0x125c_24f0, 0xde37_534a, 0x030f_7cad);
    OneRound(block, 71, Vars(0xc199_f8c7, 0x3f25_88c2, 0x125c_24f0, 0xde37_534a, 0x030f_7cad), 0x4585_46f4);
    assert Round(Vars(0xc199_f8c7, 0x3f25_88c2, 0x125c_24f0, 0xde37_534a, 0x030f_7cad), 71, 0x4585_46f4) == Vars(0x3985_9de7, 0xc199_f8c7, 0x8fc9_6230, 0x125c_24f0, 0xde37_534a);
    OneRound(block, 72, Vars(0x3985_9de7, 0xc199_f8c7, 0x8fc9_6230, 0x125c_24f0, 0xde37_534a), 0xb859_9dd6);
    assert Round(Vars(0x3985_9de7, 0xc199_f8c7, 0x8fc9_6230, 0x125c_24f0, 0xde37_534a), 72, 0xb859_9dd6) == Vars(0xedb4_2de4, 0x3985_9de7, 0xf066_7e31, 0x8fc9_6230, 0x125c_24f0);
    OneRound(block, 73, Vars(0xedb4_2de4, 0x3985_9de7, 0xf066_7e31, 0x8fc9_6230, 0x125c_24f0), 0x380a_1a26);
    assert Round(Vars(0xedb4_2de4, 0x3985_9de7, 0xf066_7e31, 0x8fc9_6230, 0x125c_24f0), 73, 0x380a_1a26) == Vars(0x1179_3f6f, 0xedb4_2de4, 0xce61_6779, 0xf066_7e31, 0x8fc9_6230);
    OneRound(block, 74, Vars(0x1179_3f6f, 0xedb4_2de4, 0xce61_6779, 0xf066_7e31, 0x8fc9_6230), 0x01e0_2203);
    assert Round(Vars(0x1179_3f6f, 0xedb4_2de4, 0xce61_6779, 0xf066_7e31, 0x8fc9_6230), 74, 0x01e0_2203) == Vars(0x5ee7_6897, 0x1179_3f6f, 0x3b6d_0b79, 0xce61_6779, 0xf066_7e31);
    OneRound(block, 75, Vars(0x5ee7_6897, 0x1179_3f6f, 0x3b6d_0b79, 0xce61_6779, 0xf066_7e31), 0xe7cc_3456);
    assert Round(Vars(0x5ee7_6897, 0x1179_3f6f, 0x3b6d_0b79, 0xce61_6779, 0xf066_7e31), 75, 0xe7cc_3456) == Vars(0x63f7_dab7, 0x5ee7_6897, 0xc45e_4fdb, 0x3b6d_0b79, 0xce61_6779);
    OneRound(block, 76, Vars(0x63f7_dab7, 0x5ee7_6897, 0xc45e_4fdb, 0x3b6d_0b79, 0xce61_6779), 0xe6e6_0b69);
    assert Round(Vars(0x63f7_dab7, 0x5ee7_6897, 0xc45e_4fdb, 0x3b6d_0b79, 0xce61_6779), 76, 0xe6e6_0b69) == Vars(0xa079_b7d9, 0x63f7_dab7, 0xd7b9_da25, 0xc45e_4fdb, 0x3b6d_0b79);
    OneRound(block, 77, Vars(0xa079_b7d9, 0x63f7_dab7, 0xd7b9_da25, 0xc45e_4fdb, 0x3b6d_0b79), 0x00f6_0a00);
    assert Round(Vars(0xa079_b7d9, 0x63f7_dab7, 0xd7b9_da25, 0xc45e_4fdb, 0x3b6d_0b79), 77, 0x00f6_0a00) == Vars(0x860d_21cc, 0xa079_b7d9, 0xd8fd_f6ad, 0xd7b9_da25, 0xc45e_4fdb);
    OneRound(block, 78, Vars(0x860d_21cc, 0xa079_b7d9, 0xd8fd_f6ad, 0xd7b9_da25, 0xc45e_4fdb), 0x5795_ef4f);
    assert Round(Vars(0x860d_21cc, 0xa079_b7d9, 0xd8fd_f6ad, 0xd7b9_da25, 0xc45e_4fdb), 78, 0x5795_ef4f) == Vars(0x5738_d5e1, 0x860d_21cc, 0x681e_6df6, 0xd8fd_f6ad, 0xd7b9_da25);
    OneRound(block, 79, Vars(0x5738_d5e1, 0x860d_21cc, 0x681e_6df6, 0xd8fd_f6ad, 0xd7b9_da25), 0x822e_0879);
    assert Round(Vars(0x5738_d5e1, 0x860d_21cc, 0x681e_6df6, 0xd8fd_f6ad, 0xd7b9_da25), 79, 0x822e_0879) == Vars(0x4254_1b35, 0x5738_d5e1, 0x2183_4873, 0x681e_6df6, 0xd8fd_f6ad);
  }

  // ----- The digest

  lemma AbcCompressed(block: seq<Word>)
    requires IsAbc(block)
    ensures Compress(H0, block) == Vars(0xa999_3e36, 0x4706_816a, 0xba3e_2571, 0x7850_c26c, 0x9cd0_d89d)
  {
    Rounds80(block);
    var v := Rounds(H0, block, 80);

    assert Add(0x6745_2301, 0x4254_1b35) == 0xa999_3e36;
    assert Add(0xefcd_ab89, 0x5738_d5e1) == 0x4706_816a;
    assert Add(0x98ba_dcfe, 0x2183_4873) == 0xba3e_2571;
    assert Add(0x1032_5476, 0x681e_6df6) == 0x7850_c26c;
    assert Add(0xc3d2_e1f0, 0xd8fd_f6ad) == 0x9cd0_d89d;
  }

  lemma {:induction false} NoBits(k: nat)
    ensures Binary(0, k) == 0
  {
    if k > 0 {
      NoBits(k - 1);
      assert Push(0, false) == 0;
    }
  }

  lemma Binary24()
    ensures LowWord(24) == 0x18 && HighWord(24) == 0
  {
    NoBits(32);
    NoBits(27);
    assert Binary(1, 28) == Push(0, true) == 1;
    assert Binary(3, 29) == Push(1, true) == 3;
    assert Binary(6, 30) == Push(3, false) == 6;
    assert Binary(12, 31) == Push(6, false) == 12;
    assert Binary(24, 32) == Push(12, false) == 24;
  }

  lemma AbcPadded(message: seq<Byte>)
    requires message == [0x61, 0x62, 0x63]
    ensures IsAbc(Padded(message))
  {
    var bytes := Stopped(message);
    assert Blocks(3) == 1;
    assert bytes[0] == 0x61 && bytes[1] == 0x62 && bytes[2] == 0x63 && bytes[3] == 0x80;
    assert forall i :: 4 <= i < 56 ==> bytes[i] == 0;
    assert Word4(0x61, 0x62, 0x63, 0x80) == 0x6162_6380;
    assert Word4(0, 0, 0, 0) == 0;
    Binary24();
  }

  lemma Bytes0()
    ensures ByteOf(0xa999_3e36, 0) == 0xa9 && ByteOf(0xa999_3e36, 1) == 0x99 && ByteOf(0xa999_3e36, 2) == 0x3e && ByteOf(0xa999_3e36, 3) == 0x36
  {}

  lemma Bytes1()
    ensures ByteOf(0x4706_816a, 0) == 0x47 && ByteOf(0x4706_816a, 1) == 0x06 && ByteOf(0x4706_816a, 2) == 0x81 && ByteOf(0x4706_816a, 3) == 0x6a
  {}

  lemma Bytes2()
    ensures ByteOf(0xba3e_2571, 0) == 0xba && ByteOf(0xba3e_2571, 1) == 0x3e && ByteOf(0xba3e_2571, 2) == 0x25 && ByteOf(0xba3e_2571, 3) == 0x71
  {}

  lemma Bytes3()
    ensures ByteOf(0x7850_c26c, 0) == 0x78 && ByteOf(0x7850_c26c, 1) == 0x50 && ByteOf(0x7850_c26c, 2) == 0xc2 && ByteOf(0x7850_c26c, 3) == 0x6c
  {}

  lemma Bytes4()
    ensures ByteOf(0x9cd0_d89d, 0) == 0x9c && ByteOf(0x9cd0_d89d, 1) == 0xd0 && ByteOf(0x9cd0_d89d, 2) == 0xd8 && ByteOf(0x9cd0_d89d, 3) == 0x9d
  {}

  lemma AbcBytes()
    ensures Digest(Vars(0xa999_3e36, 0x4706_816a, 0xba3e_2571, 0x7850_c26c, 0x9cd0_d89d)) == [
      0xa9, 0x99, 0x3e, 0x36,
      0x47, 0x06, 0x81, 0x6a,
      0xba, 0x3e, 0x25, 0x71,
      0x78, 0x50, 0xc2, 0x6c,
      0x9c, 0xd0, 0xd8, 0x9d]
  {
    var d := Digest(Vars(0xa999_3e36, 0x4706_816a, 0xba3e_2571, 0x7850_c26c, 0x9cd0_d89d));
    Bytes0();
    Bytes1();
    Bytes2();
    Bytes3();
    Bytes4();
    assert d[0] == 0xa9 && d[1] == 0x99 && d[2] == 0x3e && d[3] == 0x36;
    assert d[4] == 0x47 && d[5] == 0x06 && d[6] == 0x81 && d[7] == 0x6a;
    assert d[8] == 0xba && d[9] == 0x3e && d[10] == 0x25 && d[11] == 0x71;
    assert d[12] == 0x78 && d[13] == 0x50 && d[14] == 0xc2 && d[15] == 0x6c;
    assert d[16] == 0x9c && d[17] == 0xd0 && d[18] == 0xd8 && d[19] == 0x9d;
  }

  // SHA-1 of "abc".
  lemma AbcDigest(message: seq<Byte>)
    requires message == [0x61, 0x62, 0x63]
    ensures Sha1.Sha1(message) == [
      0xa9, 0x99, 0x3e, 0x36,
      0x47, 0x06, 0x81, 0x6a,
      0xba, 0x3e, 0x25, 0x71,
      0x78, 0x50, 0xc2, 0x6c,
      0x9c, 0xd0, 0xd8, 0x9d]
  {
    AbcPadded(message);
    assert Padded(message)[..16] == Padded(message);
    AbcCompressed(Padded(message));
    assert HashBlocks(Padded(message), 1) == Compress(H0, Padded(message));
    AbcBytes();
  }
}
