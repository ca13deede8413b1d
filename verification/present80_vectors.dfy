/** The PRESENT-80 test vectors that tests/present80_test.rs checks: the
    all-zero and all-one plaintexts under the all-zero and all-one keys.  Each
    vector is worked out step by step.  A key-schedule step or a cipher round
    on known values is one lemma about literals; chaining lemmas then carry
    the reference register and state from step to step.  The chaining lemmas
    take the key and the plaintext as parameters pinned by `requires`, so
    that the recursive definitions are never evaluated on literals. */
module Present80Vectors {
  import opened Present
  import opened Present80

  /** One step of the key schedule, from a known register to a known one. */
  lemma RegisterAfter(k: bv80, n: bv64, previous: bv80, next: bv80)
    requires 1 <= n
    requires ReferenceRegister(k, n - 1) == previous
    requires KeyScheduleStep(previous, n) == next
    ensures ReferenceRegister(k, n) == next
  {
  }

  /** One round on known values, given the state after the S-box layer:
      the S-box layer and the P-layer are checked nibble by nibble and bit by
      bit. */
  lemma CipherRoundIs(state: State, roundKey: bv64, substituted: State, next: State)
    requires forall i: bv64 :: i < 16 ==> Nibble(substituted, i) == SBox(Nibble(AddRoundKey(state, roundKey), i))
    requires forall i: bv64 :: i < 64 ==> Bit(next, P(i)) == Bit(substituted, i)
    ensures CipherRound(state, roundKey) == next
  {
    SBoxLayerIs(AddRoundKey(state, roundKey), substituted);
    PLayerIs(substituted, next);
  }

  /** One round of the reference cipher, from a known state to a known one. */
  lemma RoundsAfter(state: State, k: bv80, n: bv64, previous: State, roundKey: bv64, next: State)
    requires 1 <= n
    requires ReferenceRounds(state, k, n - 1) == previous
    requires ReferenceRoundKey(k, n - 1) == roundKey
    requires CipherRound(previous, roundKey) == next
    ensures ReferenceRounds(state, k, n) == next
  {
  }

  /** Steps 1..8 of the key schedule from the all-zero key, on known registers. */
  lemma ZeroKeySteps1()
    ensures KeyScheduleStep(0x0000_0000_0000_0000_0000, 1) == 0xC000_0000_0000_0000_8000
    ensures KeyScheduleStep(0xC000_0000_0000_0000_8000, 2) == 0x5000_1800_0000_0001_0000
    ensures KeyScheduleStep(0x5000_1800_0000_0001_0000, 3) == 0x6000_0A00_0300_0001_8000
    ensures KeyScheduleStep(0x6000_0A00_0300_0001_8000, 4) == 0xB000_0C00_0140_0062_0000
    ensures KeyScheduleStep(0xB000_0C00_0140_0062_0000, 5) == 0x9000_1600_0180_002A_800C
    ensures KeyScheduleStep(0x9000_1600_0180_002A_800C, 6) == 0x0001_9200_02C0_0033_0005
    ensures KeyScheduleStep(0x0001_9200_02C0_0033_0005, 7) == 0xA000_A000_3240_005B_8006
    ensures KeyScheduleStep(0xA000_A000_3240_005B_8006, 8) == 0xD000_D400_1400_064C_000B
  {
  }

  /** The key register after steps 1..8 of the key schedule from the all-zero key.
      `k` is pinned to the vector's values by `requires`, only so that the
      recursive definitions are never evaluated on literals. */
  lemma ZeroKeySchedule1(k: bv80)
    requires k == 0x0000_0000_0000_0000_0000
    ensures ReferenceRegister(k, 1) == 0xC000_0000_0000_0000_8000
    ensures ReferenceRegister(k, 2) == 0x5000_1800_0000_0001_0000
    ensures ReferenceRegister(k, 3) == 0x6000_0A00_0300_0001_8000
    ensures ReferenceRegister(k, 4) == 0xB000_0C00_0140_0062_0000
    ensures ReferenceRegister(k, 5) == 0x9000_1600_0180_002A_800C
    ensures ReferenceRegister(k, 6) == 0x0001_9200_02C0_0033_0005
    ensures ReferenceRegister(k, 7) == 0xA000_A000_3240_005B_8006
    ensures ReferenceRegister(k, 8) == 0xD000_D400_1400_064C_000B
  {
    ZeroKeySteps1();
    RegisterAfter(k, 1, 0x0000_0000_0000_0000_0000, 0xC000_0000_0000_0000_8000);
    RegisterAfter(k, 2, 0xC000_0000_0000_0000_8000, 0x5000_1800_0000_0001_0000);
    RegisterAfter(k, 3, 0x5000_1800_0000_0001_0000, 0x6000_0A00_0300_0001_8000);
    RegisterAfter(k, 4, 0x6000_0A00_0300_0001_8000, 0xB000_0C00_0140_0062_0000);
    RegisterAfter(k, 5, 0xB000_0C00_0140_0062_0000, 0x9000_1600_0180_002A_800C);
    RegisterAfter(k, 6, 0x9000_1600_0180_002A_800C, 0x0001_9200_02C0_0033_0005);
    RegisterAfter(k, 7, 0x0001_9200_02C0_0033_0005, 0xA000_A000_3240_005B_8006);
    RegisterAfter(k, 8, 0xA000_A000_3240_005B_8006, 0xD000_D400_1400_064C_000B);
  }

  /** Steps 9..16 of the key schedule from the all-zero key, on known registers. */
  lemma ZeroKeySteps2()
    ensures KeyScheduleStep(0xD000_D400_1400_064C_000B, 9) == 0x3001_7A00_1A80_0284_80C9
    ensures KeyScheduleStep(0x3001_7A00_1A80_0284_80C9, 10) == 0xE019_2600_2F40_0355_0050
    ensures KeyScheduleStep(0xE019_2600_2F40_0355_0050, 11) == 0xF00A_1C03_24C0_05ED_806A
    ensures KeyScheduleStep(0xF00A_1C03_24C0_05ED_806A, 12) == 0x800D_5E01_4380_649E_00BD
    ensures KeyScheduleStep(0x800D_5E01_4380_649E_00BD, 13) == 0x4017_B001_ABC0_2876_8C93
    ensures KeyScheduleStep(0x4017_B001_ABC0_2876_8C93, 14) == 0x7192_6802_F600_357F_050E
    ensures KeyScheduleStep(0x7192_6802_F600_357F_050E, 15) == 0x10A1_CE32_4D00_5EC7_86AF
    ensures KeyScheduleStep(0x10A1_CE32_4D00_5EC7_86AF, 16) == 0x20D5_E214_39C6_49A8_0BD8
  {
  }

  /** The key register after steps 9..16 of the key schedule from the all-zero key.
      `k` is pinned to the vector's values by `requires`, only so that the
      recursive definitions are never evaluated on literals. */
  lemma ZeroKeySchedule2(k: bv80)
    requires k == 0x0000_0000_0000_0000_0000
    ensures ReferenceRegister(k, 9) == 0x3001_7A00_1A80_0284_80C9
    ensures ReferenceRegister(k, 10) == 0xE019_2600_2F40_0355_0050
    ensures ReferenceRegister(k, 11) == 0xF00A_1C03_24C0_05ED_806A
    ensures ReferenceRegister(k, 12) == 0x800D_5E01_4380_649E_00BD
    ensures ReferenceRegister(k, 13) == 0x4017_B001_ABC0_2876_8C93
    ensures ReferenceRegister(k, 14) == 0x7192_6802_F600_357F_050E
    ensures ReferenceRegister(k, 15) == 0x10A1_CE32_4D00_5EC7_86AF
    ensures ReferenceRegister(k, 16) == 0x20D5_E214_39C6_49A8_0BD8
  {
    ZeroKeySchedule1(k);
    ZeroKeySteps2();
    RegisterAfter(k, 9, 0xD000_D400_1400_064C_000B, 0x3001_7A00_1A80_0284_80C9);
    RegisterAfter(k, 10, 0x3001_7A00_1A80_0284_80C9, 0xE019_2600_2F40_0355_0050);
    RegisterAfter(k, 11, 0xE019_2600_2F40_0355_0050, 0xF00A_1C03_24C0_05ED_806A);
    RegisterAfter(k, 12, 0xF00A_1C03_24C0_05ED_806A, 0x800D_5E01_4380_649E_00BD);
    RegisterAfter(k, 13, 0x800D_5E01_4380_649E_00BD, 0x4017_B001_ABC0_2876_8C93);
    RegisterAfter(k, 14, 0x4017_B001_ABC0_2876_8C93, 0x7192_6802_F600_357F_050E);
    RegisterAfter(k, 15, 0x7192_6802_F600_357F_050E, 0x10A1_CE32_4D00_5EC7_86AF);
    RegisterAfter(k, 16, 0x10A1_CE32_4D00_5EC7_86AF, 0x20D5_E214_39C6_49A8_0BD8);
  }

  /** Steps 17..24 of the key schedule from the all-zero key, on known registers. */
  lemma ZeroKeySteps3()
    ensures KeyScheduleStep(0x20D5_E214_39C6_49A8_0BD8, 17) == 0xC17B_041A_BC42_8730_4935
    ensures KeyScheduleStep(0xC17B_041A_BC42_8730_4935, 18) == 0xC926_B82F_6083_5781_50E6
    ensures KeyScheduleStep(0xC926_B82F_6083_5781_50E6, 19) == 0x6A1C_D924_D705_EC19_EAF0
    ensures KeyScheduleStep(0x6A1C_D924_D705_EC19_EAF0, 20) == 0xBD5E_0D43_9B24_9AEA_BD83
    ensures KeyScheduleStep(0xBD5E_0D43_9B24_9AEA_BD83, 21) == 0x07B0_77AB_C1A8_736E_135D
    ensures KeyScheduleStep(0x07B0_77AB_C1A8_736E_135D, 22) == 0x426B_A0F6_0EF5_783E_0E6D
    ensures KeyScheduleStep(0x426B_A0F6_0EF5_783E_0E6D, 23) == 0x41CD_A84D_741E_C1D5_2F07
    ensures KeyScheduleStep(0x41CD_A84D_741E_C1D5_2F07, 24) == 0xF5E0_E839_B509_AE8F_D83A
  {
  }

  /** The key register after steps 17..24 of the key schedule from the all-zero key.
      `k` is pinned to the vector's values by `requires`, only so that the
      recursive definitions are never evaluated on literals. */
  lemma ZeroKeySchedule3(k: bv80)
    requires k == 0x0000_0000_0000_0000_0000
    ensures ReferenceRegister(k, 17) == 0xC17B_041A_BC42_8730_4935
    ensures ReferenceRegister(k, 18) == 0xC926_B82F_6083_5781_50E6
    ensures ReferenceRegister(k, 19) == 0x6A1C_D924_D705_EC19_EAF0
    ensures ReferenceRegister(k, 20) == 0xBD5E_0D43_9B24_9AEA_BD83
    ensures ReferenceRegister(k, 21) == 0x07B0_77AB_C1A8_736E_135D
    ensures ReferenceRegister(k, 22) == 0x426B_A0F6_0EF5_783E_0E6D
    ensures ReferenceRegister(k, 23) == 0x41CD_A84D_741E_C1D5_2F07
    ensures ReferenceRegister(k, 24) == 0xF5E0_E839_B509_AE8F_D83A
  {
    ZeroKeySchedule2(k);
    ZeroKeySteps3();
    RegisterAfter(k, 17, 0x20D5_E214_39C6_49A8_0BD8, 0xC17B_041A_BC42_8730_4935);
    RegisterAfter(k, 18, 0xC17B_041A_BC42_8730_4935, 0xC926_B82F_6083_5781_50E6);
    RegisterAfter(k, 19, 0xC926_B82F_6083_5781_50E6, 0x6A1C_D924_D705_EC19_EAF0);
    RegisterAfter(k, 20, 0x6A1C_D924_D705_EC19_EAF0, 0xBD5E_0D43_9B24_9AEA_BD83);
    RegisterAfter(k, 21, 0xBD5E_0D43_9B24_9AEA_BD83, 0x07B0_77AB_C1A8_736E_135D);
    RegisterAfter(k, 22, 0x07B0_77AB_C1A8_736E_135D, 0x426B_A0F6_0EF5_783E_0E6D);
    RegisterAfter(k, 23, 0x426B_A0F6_0EF5_783E_0E6D, 0x41CD_A84D_741E_C1D5_2F07);
    RegisterAfter(k, 24, 0x41CD_A84D_741E_C1D5_2F07, 0xF5E0_E839_B509_AE8F_D83A);
  }

  /** Steps 25..31 of the key schedule from the all-zero key, on known registers. */
  lemma ZeroKeySteps4()
    ensures KeyScheduleStep(0xF5E0_E839_B509_AE8F_D83A, 25) == 0x2B07_5EBC_1D07_36AD_B5D1
    ensures KeyScheduleStep(0x2B07_5EBC_1D07_36AD_B5D1, 26) == 0x86BA_2560_EBD7_83AD_E6D5
    ensures KeyScheduleStep(0x86BA_2560_EBD7_83AD_E6D5, 27) == 0x8CDA_B0D7_44AC_1D77_7075
    ensures KeyScheduleStep(0x8CDA_B0D7_44AC_1D77_7075, 28) == 0x1E0E_B19B_561A_E89B_83AE
    ensures KeyScheduleStep(0x1E0E_B19B_561A_E89B_83AE, 29) == 0xD075_C3C1_D633_6ACD_DD13
    ensures KeyScheduleStep(0xD075_C3C1_D633_6ACD_DD13, 30) == 0x8BA2_7A0E_B878_3AC9_6D59
    ensures KeyScheduleStep(0x8BA2_7A0E_B878_3AC9_6D59, 31) == 0x6DAB_3174_4F41_D700_8759
  {
  }

  /** The key register after steps 25..31 of the key schedule from the all-zero key.
      `k` is pinned to the vector's values by `requires`, only so that the
      recursive definitions are never evaluated on literals. */
  lemma ZeroKeySchedule4(k: bv80)
    requires k == 0x0000_0000_0000_0000_0000
    ensures ReferenceRegister(k, 25) == 0x2B07_5EBC_1D07_36AD_B5D1
    ensures ReferenceRegister(k, 26) == 0x86BA_2560_EBD7_83AD_E6D5
    ensures ReferenceRegister(k, 27) == 0x8CDA_B0D7_44AC_1D77_7075
    ensures ReferenceRegister(k, 28) == 0x1E0E_B19B_561A_E89B_83AE
    ensures ReferenceRegister(k, 29) == 0xD075_C3C1_D633_6ACD_DD13
    ensures ReferenceRegister(k, 30) == 0x8BA2_7A0E_B878_3AC9_6D59
    ensures ReferenceRegister(k, 31) == 0x6DAB_3174_4F41_D700_8759
  {
    ZeroKeySchedule3(k);
    ZeroKeySteps4();
    RegisterAfter(k, 25, 0xF5E0_E839_B509_AE8F_D83A, 0x2B07_5EBC_1D07_36AD_B5D1);
    RegisterAfter(k, 26, 0x2B07_5EBC_1D07_36AD_B5D1, 0x86BA_2560_EBD7_83AD_E6D5);
    RegisterAfter(k, 27, 0x86BA_2560_EBD7_83AD_E6D5, 0x8CDA_B0D7_44AC_1D77_7075);
    RegisterAfter(k, 28, 0x8CDA_B0D7_44AC_1D77_7075, 0x1E0E_B19B_561A_E89B_83AE);
    RegisterAfter(k, 29, 0x1E0E_B19B_561A_E89B_83AE, 0xD075_C3C1_D633_6ACD_DD13);
    RegisterAfter(k, 30, 0xD075_C3C1_D633_6ACD_DD13, 0x8BA2_7A0E_B878_3AC9_6D59);
    RegisterAfter(k, 31, 0x8BA2_7A0E_B878_3AC9_6D59, 0x6DAB_3174_4F41_D700_8759);
  }

  /** Steps 1..8 of the key schedule from the all-one key, on known registers. */
  lemma OnesKeySteps1()
    ensures KeyScheduleStep(0xFFFF_FFFF_FFFF_FFFF_FFFF, 1) == 0x2FFF_FFFF_FFFF_FFFF_7FFF
    ensures KeyScheduleStep(0x2FFF_FFFF_FFFF_FFFF_7FFF, 2) == 0x1FFF_E5FF_FFFF_FFFE_FFFF
    ensures KeyScheduleStep(0x1FFF_E5FF_FFFF_FFFE_FFFF, 3) == 0x7FFF_E3FF_FCBF_FFFE_7FFF
    ensures KeyScheduleStep(0x7FFF_E3FF_FCBF_FFFE_7FFF, 4) == 0x4FFF_EFFF_FC7F_FF95_FFFF
    ensures KeyScheduleStep(0x4FFF_EFFF_FC7F_FF95_FFFF, 5) == 0x8FFF_E9FF_FDFF_FF8D_7FF2
    ensures KeyScheduleStep(0x8FFF_E9FF_FDFF_FF8D_7FF2, 6) == 0xFFFE_51FF_FD3F_FFBC_FFF1
    ensures KeyScheduleStep(0xFFFE_51FF_FD3F_FFBC_FFF1, 7) == 0xEFFE_3FFF_CA3F_FFA4_7FF7
    ensures KeyScheduleStep(0xEFFE_3FFF_CA3F_FFA4_7FF7, 8) == 0x3FFE_FDFF_C7FF_F943_FFF4
  {
  }

  /** The key register after steps 1..8 of the key schedule from the all-one key.
      `k` is pinned to the vector's values by `requires`, only so that the
      recursive definitions are never evaluated on literals. */
  lemma OnesKeySchedule1(k: bv80)
    requires k == 0xFFFF_FFFF_FFFF_FFFF_FFFF
    ensures ReferenceRegister(k, 1) == 0x2FFF_FFFF_FFFF_FFFF_7FFF
    ensures ReferenceRegister(k, 2) == 0x1FFF_E5FF_FFFF_FFFE_FFFF
    ensures ReferenceRegister(k, 3) == 0x7FFF_E3FF_FCBF_FFFE_7FFF
    ensures ReferenceRegister(k, 4) == 0x4FFF_EFFF_FC7F_FF95_FFFF
    ensures ReferenceRegister(k, 5) == 0x8FFF_E9FF_FDFF_FF8D_7FF2
    ensures ReferenceRegister(k, 6) == 0xFFFE_51FF_FD3F_FFBC_FFF1
    ensures ReferenceRegister(k, 7) == 0xEFFE_3FFF_CA3F_FFA4_7FF7
    ensures ReferenceRegister(k, 8) == 0x3FFE_FDFF_C7FF_F943_FFF4
  {
    OnesKeySteps1();
    RegisterAfter(k, 1, 0xFFFF_FFFF_FFFF_FFFF_FFFF, 0x2FFF_FFFF_FFFF_FFFF_7FFF);
    RegisterAfter(k, 2, 0x2FFF_FFFF_FFFF_FFFF_7FFF, 0x1FFF_E5FF_FFFF_FFFE_FFFF);
    RegisterAfter(k, 3, 0x1FFF_E5FF_FFFF_FFFE_FFFF, 0x7FFF_E3FF_FCBF_FFFE_7FFF);
    RegisterAfter(k, 4, 0x7FFF_E3FF_FCBF_FFFE_7FFF, 0x4FFF_EFFF_FC7F_FF95_FFFF);
    RegisterAfter(k, 5, 0x4FFF_EFFF_FC7F_FF95_FFFF, 0x8FFF_E9FF_FDFF_FF8D_7FF2);
    RegisterAfter(k, 6, 0x8FFF_E9FF_FDFF_FF8D_7FF2, 0xFFFE_51FF_FD3F_FFBC_FFF1);
    RegisterAfter(k, 7, 0xFFFE_51FF_FD3F_FFBC_FFF1, 0xEFFE_3FFF_CA3F_FFA4_7FF7);
    RegisterAfter(k, 8, 0xEFFE_3FFF_CA3F_FFA4_7FF7, 0x3FFE_FDFF_C7FF_F943_FFF4);
  }

  /** Steps 9..16 of the key schedule from the all-one key, on known registers. */
  lemma OnesKeySteps2()
    ensures KeyScheduleStep(0x3FFE_FDFF_C7FF_F943_FFF4, 9) == 0xDFFE_87FF_DFBF_F8FB_7F28
    ensures KeyScheduleStep(0xDFFE_87FF_DFBF_F8FB_7F28, 10) == 0xAFE5_1BFF_D0FF_FBF2_FF1F
    ensures KeyScheduleStep(0xAFE5_1BFF_D0FF_FBF2_FF1F, 11) == 0x0FE3_F5FC_A37F_FA1A_7F7E
    ensures KeyScheduleStep(0x0FE3_F5FC_A37F_FA1A_7F7E, 12) == 0x9FEF_C1FC_7EBF_9469_FF43
    ensures KeyScheduleStep(0x9FEF_C1FC_7EBF_9469_FF43, 13) == 0xBFE8_73FD_F83F_8FD1_728D
    ensures KeyScheduleStep(0xBFE8_73FD_F83F_8FD1_728D, 14) == 0x6E51_B7FD_0E7F_BF00_F1FA
    ensures KeyScheduleStep(0x6E51_B7FD_0E7F_BF00_F1FA, 15) == 0x5E3F_4DCA_36FF_A1C8_77E0
    ensures KeyScheduleStep(0x5E3F_4DCA_36FF_A1C8_77E0, 16) == 0xCEFC_0BC7_E9B9_46D7_F439
  {
  }

  /** The key register after steps 9..16 of the key schedule from the all-one key.
      `k` is pinned to the vector's values by `requires`, only so that the
      recursive definitions are never evaluated on literals. */
  lemma OnesKeySchedule2(k: bv80)
    requires k == 0xFFFF_FFFF_FFFF_FFFF_FFFF
    ensures ReferenceRegister(k, 9) == 0xDFFE_87FF_DFBF_F8FB_7F28
    ensures ReferenceRegister(k, 10) == 0xAFE5_1BFF_D0FF_FBF2_FF1F
    ensures ReferenceRegister(k, 11) == 0x0FE3_F5FC_A37F_FA1A_7F7E
    ensures ReferenceRegister(k, 12) == 0x9FEF_C1FC_7EBF_9469_FF43
    ensures ReferenceRegister(k, 13) == 0xBFE8_73FD_F83F_8FD1_728D
    ensures ReferenceRegister(k, 14) == 0x6E51_B7FD_0E7F_BF00_F1FA
    ensures ReferenceRegister(k, 15) == 0x5E3F_4DCA_36FF_A1C8_77E0
    ensures ReferenceRegister(k, 16) == 0xCEFC_0BC7_E9B9_46D7_F439
  {
    OnesKeySchedule1(k);
    OnesKeySteps2();
    RegisterAfter(k, 9, 0x3FFE_FDFF_C7FF_F943_FFF4, 0xDFFE_87FF_DFBF_F8FB_7F28);
    RegisterAfter(k, 10, 0xDFFE_87FF_DFBF_F8FB_7F28, 0xAFE5_1BFF_D0FF_FBF2_FF1F);
    RegisterAfter(k, 11, 0xAFE5_1BFF_D0FF_FBF2_FF1F, 0x0FE3_F5FC_A37F_FA1A_7F7E);
    RegisterAfter(k, 12, 0x0FE3_F5FC_A37F_FA1A_7F7E, 0x9FEF_C1FC_7EBF_9469_FF43);
    RegisterAfter(k, 13, 0x9FEF_C1FC_7EBF_9469_FF43, 0xBFE8_73FD_F83F_8FD1_728D);
    RegisterAfter(k, 14, 0xBFE8_73FD_F83F_8FD1_728D, 0x6E51_B7FD_0E7F_BF00_F1FA);
    RegisterAfter(k, 15, 0x6E51_B7FD_0E7F_BF00_F1FA, 0x5E3F_4DCA_36FF_A1C8_77E0);
    RegisterAfter(k, 16, 0x5E3F_4DCA_36FF_A1C8_77E0, 0xCEFC_0BC7_E9B9_46D7_F439);
  }

  /** Steps 17..24 of the key schedule from the all-one key, on known registers. */
  lemma OnesKeySteps3()
    ensures KeyScheduleStep(0xCEFC_0BC7_E9B9_46D7_F439, 17) == 0x2E87_39DF_8178_FD3F_A8DA
    ensures KeyScheduleStep(0x2E87_39DF_8178_FD3F_A8DA, 18) == 0x251B_45D0_E73B_F026_1FA7
    ensures KeyScheduleStep(0x251B_45D0_E73B_F026_1FA7, 19) == 0x43F4_E4A3_68BA_1CEE_FE04
    ensures KeyScheduleStep(0x43F4_E4A3_68BA_1CEE_FE04, 20) == 0x7FC0_887E_9C94_6D1D_439D
    ensures KeyScheduleStep(0x7FC0_887E_9C94_6D1D_439D, 21) == 0xF873_AFF8_110F_D398_0DA3
    ensures KeyScheduleStep(0xF873_AFF8_110F_D398_0DA3, 22) == 0xC1B4_7F0E_75FF_022A_FA73
    ensures KeyScheduleStep(0xC1B4_7F0E_75FF_022A_FA73, 23) == 0x0F4E_7836_8FE1_CEB4_6045
    ensures KeyScheduleStep(0x0F4E_7836_8FE1_CEB4_6045, 24) == 0x3C08_A1E9_CF06_D1F0_39D6
  {
  }

  /** The key register after steps 17..24 of the key schedule from the all-one key.
      `k` is pinned to the vector's values by `requires`, only so that the
      recursive definitions are never evaluated on literals. */
  lemma OnesKeySchedule3(k: bv80)
    requires k == 0xFFFF_FFFF_FFFF_FFFF_FFFF
    ensures ReferenceRegister(k, 17) == 0x2E87_39DF_8178_FD3F_A8DA
    ensures ReferenceRegister(k, 18) == 0x251B_45D0_E73B_F026_1FA7
    ensures ReferenceRegister(k, 19) == 0x43F4_E4A3_68BA_1CEE_FE04
    ensures ReferenceRegister(k, 20) == 0x7FC0_887E_9C94_6D1D_439D
    ensures ReferenceRegister(k, 21) == 0xF873_AFF8_110F_D398_0DA3
    ensures ReferenceRegister(k, 22) == 0xC1B4_7F0E_75FF_022A_FA73
    ensures ReferenceRegister(k, 23) == 0x0F4E_7836_8FE1_CEB4_6045
    ensures ReferenceRegister(k, 24) == 0x3C08_A1E9_CF06_D1F0_39D6
  {
    OnesKeySchedule2(k);
    OnesKeySteps3();
    RegisterAfter(k, 17, 0xCEFC_0BC7_E9B9_46D7_F439, 0x2E87_39DF_8178_FD3F_A8DA);
    RegisterAfter(k, 18, 0x2E87_39DF_8178_FD3F_A8DA, 0x251B_45D0_E73B_F026_1FA7);
    RegisterAfter(k, 19, 0x251B_45D0_E73B_F026_1FA7, 0x43F4_E4A3_68BA_1CEE_FE04);
    RegisterAfter(k, 20, 0x43F4_E4A3_68BA_1CEE_FE04, 0x7FC0_887E_9C94_6D1D_439D);
    RegisterAfter(k, 21, 0x7FC0_887E_9C94_6D1D_439D, 0xF873_AFF8_110F_D398_0DA3);
    RegisterAfter(k, 22, 0xF873_AFF8_110F_D398_0DA3, 0xC1B4_7F0E_75FF_022A_FA73);
    RegisterAfter(k, 23, 0xC1B4_7F0E_75FF_022A_FA73, 0x0F4E_7836_8FE1_CEB4_6045);
    RegisterAfter(k, 24, 0x0F4E_7836_8FE1_CEB4_6045, 0x3C08_A1E9_CF06_D1F0_39D6);
  }

  /** Steps 25..31 of the key schedule from the all-one key, on known registers. */
  lemma OnesKeySteps4()
    ensures KeyScheduleStep(0x3C08_A1E9_CF06_D1F0_39D6, 25) == 0xC73A_C781_143D_39EC_5A3E
    ensures KeyScheduleStep(0xC73A_C781_143D_39EC_5A3E, 26) == 0x3B47_D8E7_58F0_228A_A73D
    ensures KeyScheduleStep(0x3B47_D8E7_58F0_228A_A73D, 27) == 0x04E7_A768_FB1C_EB13_8451
    ensures KeyScheduleStep(0x04E7_A768_FB1C_EB13_8451, 28) == 0xD08A_209C_F4ED_1F6D_9D62
    ensures KeyScheduleStep(0xD08A_209C_F4ED_1F6D_9D62, 29) == 0x83AC_5A11_4413_9E93_23ED
    ensures KeyScheduleStep(0x83AC_5A11_4413_9E93_23ED, 30) == 0xA47D_B075_8B42_288D_73D2
    ensures KeyScheduleStep(0xA47D_B075_8B42_288D_73D2, 31) == 0xFE7A_548F_B60E_B167_C511
  {
  }

  /** The key register after steps 25..31 of the key schedule from the all-one key.
      `k` is pinned to the vector's values by `requires`, only so that the
      recursive definitions are never evaluated on literals. */
  lemma OnesKeySchedule4(k: bv80)
    requires k == 0xFFFF_FFFF_FFFF_FFFF_FFFF
    ensures ReferenceRegister(k, 25) == 0xC73A_C781_143D_39EC_5A3E
    ensures ReferenceRegister(k, 26) == 0x3B47_D8E7_58F0_228A_A73D
    ensures ReferenceRegister(k, 27) == 0x04E7_A768_FB1C_EB13_8451
    ensures ReferenceRegister(k, 28) == 0xD08A_209C_F4ED_1F6D_9D62
    ensures ReferenceRegister(k, 29) == 0x83AC_5A11_4413_9E93_23ED
    ensures ReferenceRegister(k, 30) == 0xA47D_B075_8B42_288D_73D2
    ensures ReferenceRegister(k, 31) == 0xFE7A_548F_B60E_B167_C511
  {
    OnesKeySchedule3(k);
    OnesKeySteps4();
    RegisterAfter(k, 25, 0x3C08_A1E9_CF06_D1F0_39D6, 0xC73A_C781_143D_39EC_5A3E);
    RegisterAfter(k, 26, 0xC73A_C781_143D_39EC_5A3E, 0x3B47_D8E7_58F0_228A_A73D);
    RegisterAfter(k, 27, 0x3B47_D8E7_58F0_228A_A73D, 0x04E7_A768_FB1C_EB13_8451);
    RegisterAfter(k, 28, 0x04E7_A768_FB1C_EB13_8451, 0xD08A_209C_F4ED_1F6D_9D62);
    RegisterAfter(k, 29, 0xD08A_209C_F4ED_1F6D_9D62, 0x83AC_5A11_4413_9E93_23ED);
    RegisterAfter(k, 30, 0x83AC_5A11_4413_9E93_23ED, 0xA47D_B075_8B42_288D_73D2);
    RegisterAfter(k, 31, 0xA47D_B075_8B42_288D_73D2, 0xFE7A_548F_B60E_B167_C511);
  }

  /* Rounds 1..31 on the all-zero block under the all-zero key, one by one. */

  lemma ZerosUnderZeroKeyRound1()
    ensures CipherRound(0x0000_0000_0000_0000, 0x0000_0000_0000_0000) == 0xFFFF_FFFF_0000_0000
  { CipherRoundIs(0x0000_0000_0000_0000, 0x0000_0000_0000_0000, 0xCCCC_CCCC_CCCC_CCCC, 0xFFFF_FFFF_0000_0000); }

  lemma ZerosUnderZeroKeyRound2()
    ensures CipherRound(0xFFFF_FFFF_0000_0000, 0xC000_0000_0000_0000) == 0x80FF_00FF_FF00_8000
  { CipherRoundIs(0xFFFF_FFFF_0000_0000, 0xC000_0000_0000_0000, 0xB222_2222_CCCC_CCCC, 0x80FF_00FF_FF00_8000); }

  lemma ZerosUnderZeroKeyRound3()
    ensures CipherRound(0x80FF_00FF_FF00_8000, 0x5000_1800_0000_0001) == 0x4036_C837_B7C8_8C09
  { CipherRoundIs(0x80FF_00FF_FF00_8000, 0x5000_1800_0000_0001, 0x7C22_5322_22CC_3CC5, 0x4036_C837_B7C8_8C09); }

  lemma ZerosUnderZeroKeyRound4()
    ensures CipherRound(0x4036_C837_B7C8_8C09, 0x6000_0A00_0300_0001) == 0x73C2_CD26_B619_2359
  { CipherRoundIs(0x4036_C837_B7C8_8C09, 0x6000_0A00_0300_0001, 0x6CBA_46BD_8943_34C3, 0x73C2_CD26_B619_2359); }

  lemma ZerosUnderZeroKeyRound5()
    ensures CipherRound(0x73C2_CD26_B619_2359, 0xB000_0C00_0140_0062) == 0x41D7_BE58_531E_4446
  { CipherRoundIs(0x73C2_CD26_B619_2359, 0xB000_0C00_0140_0062, 0x4B46_456A_8D0E_6BB8, 0x41D7_BE58_531E_4446); }

  lemma ZerosUnderZeroKeyRound6()
    ensures CipherRound(0x41D7_BE58_531E_4446, 0x9000_1600_0180_002A) == 0x182E_F861_AD62_FD1C
  { CipherRoundIs(0x41D7_BE58_531E_4446, 0x9000_1600_0180_002A, 0x757D_F303_06E1_99A4, 0x182E_F861_AD62_FD1C); }

  lemma ZerosUnderZeroKeyRound7()
    ensures CipherRound(0x182E_F861_AD62_FD1C, 0x0001_9200_02C0_0033) == 0x0EA0_A5B6_7EFF_C5A4
  { CipherRoundIs(0x182E_F861_AD62_FD1C, 0x0001_9200_02C0_0033, 0x5362_AFA5_F2F6_2762, 0x0EA0_A5B6_7EFF_C5A4); }

  lemma ZerosUnderZeroKeyRound8()
    ensures CipherRound(0x0EA0_A5B6_7EFF_C5A4, 0xA000_A000_3240_005B) == 0xBBA0_B848_A113_E080
  { CipherRoundIs(0x0EA0_A5B6_7EFF_C5A4, 0xA000_A000_3240_005B, 0xF1FC_C08A_9482_4022, 0xBBA0_B848_A113_E080); }

  lemma ZerosUnderZeroKeyRound9()
    ensures CipherRound(0xBBA0_B848_A113_E080, 0xD000_D400_1400_064C) == 0xFA94_3423_A914_2338
  { CipherRoundIs(0xBBA0_B848_A113_E080, 0xD000_D400_1400_064C, 0xA8FC_A493_805B_1A44, 0xFA94_3423_A914_2338); }

  lemma ZerosUnderZeroKeyRound10()
    ensures CipherRound(0xFA94_3423_A914_2338, 0x3001_7A00_1A80_0284) == 0x69F2_E22D_6368_4D54
  { CipherRoundIs(0xFA94_3423_A914_2338, 0x3001_7A00_1A80_0284, 0x4FE0_916B_8BE9_6584, 0x69F2_E22D_6368_4D54); }

  lemma ZerosUnderZeroKeyRound11()
    ensures CipherRound(0x69F2_E22D_6368_4D54, 0xE019_2600_2F40_0355) == 0x548A_4B63_C330_A59D
  { CipherRoundIs(0x69F2_E22D_6368_4D54, 0xE019_2600_2F40_0355, 0x3E18_4967_9463_91C5, 0x548A_4B63_C330_A59D); }

  lemma ZerosUnderZeroKeyRound12()
    ensures CipherRound(0x548A_4B63_C330_A59D, 0xF00A_1C03_24C0_05ED) == 0xD75F_955F_A228_E4CA
  { CipherRoundIs(0x548A_4B63_C330_A59D, 0xF00A_1C03_24C0_05ED, 0xF93C_0DAC_1D2C_FCDC, 0xD75F_955F_A228_E4CA); }

  lemma ZerosUnderZeroKeyRound13()
    ensures CipherRound(0xD75F_955F_A228_E4CA, 0x800D_5E01_4380_649E) == 0x4425_5864_1038_41F9
  { CipherRoundIs(0xD75F_955F_A228_E4CA, 0x800D_5E01_4380_649E, 0x0D06_4801_15F3_3C09, 0x4425_5864_1038_41F9); }

  lemma ZerosUnderZeroKeyRound14()
    ensures CipherRound(0x4425_5864_1038_41F9, 0x4017_B001_ABC0_2876) == 0xE2CC_9004_363F_6C12
  { CipherRoundIs(0x4425_5864_1038_41F9, 0x4017_B001_ABC0_2876, 0xC9B6_13A0_8823_AE32, 0xE2CC_9004_363F_6C12); }

  lemma ZerosUnderZeroKeyRound15()
    ensures CipherRound(0xE2CC_9004_363F_6C12, 0x7192_6802_F600_357F) == 0xC366_82C5_CD37_5421
  { CipherRoundIs(0xE2CC_9004_363F_6C12, 0x7192_6802_F600_357F, 0xEB01_23CA_4CB2_0EA7, 0xC366_82C5_CD37_5421); }

  lemma ZerosUnderZeroKeyRound16()
    ensures CipherRound(0xC366_82C5_CD37_5421, 0x10A1_CE32_4D00_5EC7) == 0x597D_B55C_C2A5_D9B6
  { CipherRoundIs(0xC366_82C5_CD37_5421, 0x10A1_CE32_4D00_5EC7, 0x7B4D_942D_3CBD_CF1A, 0x597D_B55C_C2A5_D9B6); }

  lemma ZerosUnderZeroKeyRound17()
    ensures CipherRound(0x597D_B55C_C2A5_D9B6, 0x20D5_E214_39C6_49A8) == 0xE67C_E40E_71B8_B713
  { CipherRoundIs(0x597D_B55C_C2A5_D9B6, 0x20D5_E214_39C6_49A8, 0xDEF3_0D93_28AB_EC51, 0xE67C_E40E_71B8_B713); }

  lemma ZerosUnderZeroKeyRound18()
    ensures CipherRound(0xE67C_E40E_71B8_B713, 0xC17B_041A_BC42_8730) == 0x751D_F6D6_807B_5B59
  { CipherRoundIs(0xE67C_E40E_71B8_B713, 0xC17B_041A_BC42_8730, 0x6DCD_1C59_472F_BC6B, 0x751D_F6D6_807B_5B59); }

  lemma ZerosUnderZeroKeyRound19()
    ensures CipherRound(0x751D_F6D6_807B_5B59, 0xC926_B82F_6083_5781) == 0xB948_414E_2333_2C93
  { CipherRoundIs(0x751D_F6D6_807B_5B59, 0xC926_B82F_6083_5781, 0x84B8_912E_1C23_C473, 0xB948_414E_2333_2C93); }

  lemma ZerosUnderZeroKeyRound20()
    ensures CipherRound(0xB948_414E_2333_2C93, 0x6A1C_D924_D705_EC19) == 0x5B75_890D_CFB3_D563
  { CipherRoundIs(0xB948_414E_2333_2C93, 0x6A1C_D924_D705_EC19, 0x7B09_E3AF_29BA_4C3F, 0x5B75_890D_CFB3_D563); }

  lemma ZerosUnderZeroKeyRound21()
    ensures CipherRound(0x5B75_890D_CFB3_D563, 0xBD5E_0D43_9B24_9AEA) == 0x5679_2031_6827_8F5A
  { CipherRoundIs(0x5B75_890D_CFB3_D563, 0xBD5E_0D43_9B24_9AEA, 0x1A68_3991_09ED_923E, 0x5679_2031_6827_8F5A); }

  lemma ZerosUnderZeroKeyRound22()
    ensures CipherRound(0x5679_2031_6827_8F5A, 0x07B0_77AB_C1A8_736E) == 0x17C3_77C4_13FA_45A3
  { CipherRoundIs(0x5679_2031_6827_8F5A, 0x07B0_77AB_C1A8_736E, 0x054E_0DEF_FE32_24B9, 0x17C3_77C4_13FA_45A3); }

  lemma ZerosUnderZeroKeyRound23()
    ensures CipherRound(0x17C3_77C4_13FA_45A3, 0x426B_A0F6_0EF5_783E) == 0x262A_2DE7_3B5F_3ECD
  { CipherRoundIs(0x17C3_77C4_13FA_45A3, 0x426B_A0F6_0EF5_783E, 0x00F3_7DB6_57C2_B7E7, 0x262A_2DE7_3B5F_3ECD); }

  lemma ZerosUnderZeroKeyRound24()
    ensures CipherRound(0x262A_2DE7_3B5F_3ECD, 0x41CD_A84D_741E_C1D5) == 0xD3A0_5312_8B4D_7BB3
  { CipherRoundIs(0x262A_2DE7_3B5F_3ECD, 0x41CD_A84D_741E_C1D5, 0xAD1D_30FF_9295_2253, 0xD3A0_5312_8B4D_7BB3); }

  lemma ZerosUnderZeroKeyRound25()
    ensures CipherRound(0xD3A0_5312_8B4D_7BB3, 0xF5E0_E839_B509_AE8F) == 0x7DB2_9209_C28A_20FA
  { CipherRoundIs(0xD3A0_5312_8B4D_7BB3, 0xF5E0_E839_B509_AE8F, 0x6A9C_8868_B199_70B4, 0x7DB2_9209_C28A_20FA); }

  lemma ZerosUnderZeroKeyRound26()
    ensures CipherRound(0x7DB2_9209_C28A_20FA, 0x2B07_5EBC_1D07_36AD) == 0x6205_0C99_40F4_00B9
  { CipherRoundIs(0x7DB2_9209_C28A_20FA, 0x2B07_5EBC_1D07_36AD, 0x0A80_4480_7237_5A0D, 0x6205_0C99_40F4_00B9); }

  lemma ZerosUnderZeroKeyRound27()
    ensures CipherRound(0x6205_0C99_40F4_00B9, 0x86BA_2560_EBD7_83AD) == 0x65D5_0DA2_1FBC_C09F
  { CipherRoundIs(0x6205_0C99_40F4_00B9, 0x86BA_2560_EBD7_83AD, 0x1982_6E2E_F86B_3B59, 0x65D5_0DA2_1FBC_C09F); }

  lemma ZerosUnderZeroKeyRound28()
    ensures CipherRound(0x65D5_0DA2_1FBC_C09F, 0x8CDA_B0D7_44AC_1D77) == 0x6A50_663C_540D_862F
  { CipherRoundIs(0x65D5_0DA2_1FBC_C09F, 0x8CDA_B0D7_44AC_1D77, 0x1EC2_87D0_085C_7713, 0x6A50_663C_540D_862F); }

  lemma ZerosUnderZeroKeyRound29()
    ensures CipherRound(0x6A50_663C_540D_862F, 0x1E0E_B19B_561A_E89B) == 0xC79B_8FF0_0A48_DF35
  { CipherRoundIs(0x6A50_663C_540D_862F, 0x1E0E_B19B_561A_E89B, 0xD901_7DFD_C65D_A189, 0xC79B_8FF0_0A48_DF35); }

  lemma ZerosUnderZeroKeyRound30()
    ensures CipherRound(0xC79B_8FF0_0A48_DF35, 0xD075_C3C1_D633_6ACD) == 0x4A38_C5E0_0283_FBA1
  { CipherRoundIs(0xC79B_8FF0_0A48_DF35, 0xD075_C3C1_D633_6ACD, 0x5D11_94B5_74D8_8023, 0x4A38_C5E0_0283_FBA1); }

  lemma ZerosUnderZeroKeyRound31()
    ensures CipherRound(0x4A38_C5E0_0283_FBA1, 0x8BA2_7A0E_B878_3AC9) == 0x38D2_F04C_3463_5345
  { CipherRoundIs(0x4A38_C5E0_0283_FBA1, 0x8BA2_7A0E_B878_3AC9, 0x45EF_8211_8F28_45A3, 0x38D2_F04C_3463_5345); }

  /** The state after rounds 1..8 on the all-zero block under the all-zero key.
      `p` and `k` are pinned to the vector's values by `requires`, only so that the
      recursive definitions are never evaluated on literals. */
  lemma ZerosUnderZeroKeyRounds1(p: State, k: bv80)
    requires p == 0x0000_0000_0000_0000 && k == 0x0000_0000_0000_0000_0000
    ensures ReferenceRounds(p, k, 1) == 0xFFFF_FFFF_0000_0000
    ensures ReferenceRounds(p, k, 2) == 0x80FF_00FF_FF00_8000
    ensures ReferenceRounds(p, k, 3) == 0x4036_C837_B7C8_8C09
    ensures ReferenceRounds(p, k, 4) == 0x73C2_CD26_B619_2359
    ensures ReferenceRounds(p, k, 5) == 0x41D7_BE58_531E_4446
    ensures ReferenceRounds(p, k, 6) == 0x182E_F861_AD62_FD1C
    ensures ReferenceRounds(p, k, 7) == 0x0EA0_A5B6_7EFF_C5A4
    ensures ReferenceRounds(p, k, 8) == 0xBBA0_B848_A113_E080
  {
    ZeroKeySchedule1(k);
    ZerosUnderZeroKeyRound1();
    RoundsAfter(p, k, 1, 0x0000_0000_0000_0000, 0x0000_0000_0000_0000, 0xFFFF_FFFF_0000_0000);
    ZerosUnderZeroKeyRound2();
    RoundsAfter(p, k, 2, 0xFFFF_FFFF_0000_0000, 0xC000_0000_0000_0000, 0x80FF_00FF_FF00_8000);
    ZerosUnderZeroKeyRound3();
    RoundsAfter(p, k, 3, 0x80FF_00FF_FF00_8000, 0x5000_1800_0000_0001, 0x4036_C837_B7C8_8C09);
    ZerosUnderZeroKeyRound4();
    RoundsAfter(p, k, 4, 0x4036_C837_B7C8_8C09, 0x6000_0A00_0300_0001, 0x73C2_CD26_B619_2359);
    ZerosUnderZeroKeyRound5();
    RoundsAfter(p, k, 5, 0x73C2_CD26_B619_2359, 0xB000_0C00_0140_0062, 0x41D7_BE58_531E_4446);
    ZerosUnderZeroKeyRound6();
    RoundsAfter(p, k, 6, 0x41D7_BE58_531E_4446, 0x9000_1600_0180_002A, 0x182E_F861_AD62_FD1C);
    ZerosUnderZeroKeyRound7();
    RoundsAfter(p, k, 7, 0x182E_F861_AD62_FD1C, 0x0001_9200_02C0_0033, 0x0EA0_A5B6_7EFF_C5A4);
    ZerosUnderZeroKeyRound8();
    RoundsAfter(p, k, 8, 0x0EA0_A5B6_7EFF_C5A4, 0xA000_A000_3240_005B, 0xBBA0_B848_A113_E080);
  }

  /** The state after rounds 9..16 on the all-zero block under the all-zero key.
      `p` and `k` are pinned to the vector's values by `requires`, only so that the
      recursive definitions are never evaluated on literals. */
  lemma ZerosUnderZeroKeyRounds2(p: State, k: bv80)
    requires p == 0x0000_0000_0000_0000 && k == 0x0000_0000_0000_0000_0000
    ensures ReferenceRounds(p, k, 9) == 0xFA94_3423_A914_2338
    ensures ReferenceRounds(p, k, 10) == 0x69F2_E22D_6368_4D54
    ensures ReferenceRounds(p, k, 11) == 0x548A_4B63_C330_A59D
    ensures ReferenceRounds(p, k, 12) == 0xD75F_955F_A228_E4CA
    ensures ReferenceRounds(p, k, 13) == 0x4425_5864_1038_41F9
    ensures ReferenceRounds(p, k, 14) == 0xE2CC_9004_363F_6C12
    ensures ReferenceRounds(p, k, 15) == 0xC366_82C5_CD37_5421
    ensures ReferenceRounds(p, k, 16) == 0x597D_B55C_C2A5_D9B6
  {
    ZerosUnderZeroKeyRounds1(p, k);
    ZeroKeySchedule1(k);
    ZeroKeySchedule2(k);
    ZerosUnderZeroKeyRound9();
    RoundsAfter(p, k, 9, 0xBBA0_B848_A113_E080, 0xD000_D400_1400_064C, 0xFA94_3423_A914_2338);
    ZerosUnderZeroKeyRound10();
    RoundsAfter(p, k, 10, 0xFA94_3423_A914_2338, 0x3001_7A00_1A80_0284, 0x69F2_E22D_6368_4D54);
    ZerosUnderZeroKeyRound11();
    RoundsAfter(p, k, 11, 0x69F2_E22D_6368_4D54, 0xE019_2600_2F40_0355, 0x548A_4B63_C330_A59D);
    ZerosUnderZeroKeyRound12();
    RoundsAfter(p, k, 12, 0x548A_4B63_C330_A59D, 0xF00A_1C03_24C0_05ED, 0xD75F_955F_A228_E4CA);
    ZerosUnderZeroKeyRound13();
    RoundsAfter(p, k, 13, 0xD75F_955F_A228_E4CA, 0x800D_5E01_4380_649E, 0x4425_5864_1038_41F9);
    ZerosUnderZeroKeyRound14();
    RoundsAfter(p, k, 14, 0x4425_5864_1038_41F9, 0x4017_B001_ABC0_2876, 0xE2CC_9004_363F_6C12);
    ZerosUnderZeroKeyRound15();
    RoundsAfter(p, k, 15, 0xE2CC_9004_363F_6C12, 0x7192_6802_F600_357F, 0xC366_82C5_CD37_5421);
    ZerosUnderZeroKeyRound16();
    RoundsAfter(p, k, 16, 0xC366_82C5_CD37_5421, 0x10A1_CE32_4D00_5EC7, 0x597D_B55C_C2A5_D9B6);
  }

  /** The state after rounds 17..24 on the all-zero block under the all-zero key.
      `p` and `k` are pinned to the vector's values by `requires`, only so that the
      recursive definitions are never evaluated on literals. */
  lemma ZerosUnderZeroKeyRounds3(p: State, k: bv80)
    requires p == 0x0000_0000_0000_0000 && k == 0x0000_0000_0000_0000_0000
    ensures ReferenceRounds(p, k, 17) == 0xE67C_E40E_71B8_B713
    ensures ReferenceRounds(p, k, 18) == 0x751D_F6D6_807B_5B59
    ensures ReferenceRounds(p, k, 19) == 0xB948_414E_2333_2C93
    ensures ReferenceRounds(p, k, 20) == 0x5B75_890D_CFB3_D563
    ensures ReferenceRounds(p, k, 21) == 0x5679_2031_6827_8F5A
    ensures ReferenceRounds(p, k, 22) == 0x17C3_77C4_13FA_45A3
    ensures ReferenceRounds(p, k, 23) == 0x262A_2DE7_3B5F_3ECD
    ensures ReferenceRounds(p, k, 24) == 0xD3A0_5312_8B4D_7BB3
  {
    ZerosUnderZeroKeyRounds2(p, k);
    ZeroKeySchedule2(k);
    ZeroKeySchedule3(k);
    ZerosUnderZeroKeyRound17();
    RoundsAfter(p, k, 17, 0x597D_B55C_C2A5_D9B6, 0x20D5_E214_39C6_49A8, 0xE67C_E40E_71B8_B713);
    ZerosUnderZeroKeyRound18();
    RoundsAfter(p, k, 18, 0xE67C_E40E_71B8_B713, 0xC17B_041A_BC42_8730, 0x751D_F6D6_807B_5B59);
    ZerosUnderZeroKeyRound19();
    RoundsAfter(p, k, 19, 0x751D_F6D6_807B_5B59, 0xC926_B82F_6083_5781, 0xB948_414E_2333_2C93);
    ZerosUnderZeroKeyRound20();
    RoundsAfter(p, k, 20, 0xB948_414E_2333_2C93, 0x6A1C_D924_D705_EC19, 0x5B75_890D_CFB3_D563);
    ZerosUnderZeroKeyRound21();
    RoundsAfter(p, k, 21, 0x5B75_890D_CFB3_D563, 0xBD5E_0D43_9B24_9AEA, 0x5679_2031_6827_8F5A);
    ZerosUnderZeroKeyRound22();
    RoundsAfter(p, k, 22, 0x5679_2031_6827_8F5A, 0x07B0_77AB_C1A8_736E, 0x17C3_77C4_13FA_45A3);
    ZerosUnderZeroKeyRound23();
    RoundsAfter(p, k, 23, 0x17C3_77C4_13FA_45A3, 0x426B_A0F6_0EF5_783E, 0x262A_2DE7_3B5F_3ECD);
    ZerosUnderZeroKeyRound24();
    RoundsAfter(p, k, 24, 0x262A_2DE7_3B5F_3ECD, 0x41CD_A84D_741E_C1D5, 0xD3A0_5312_8B4D_7BB3);
  }

  /** The state after rounds 25..31 on the all-zero block under the all-zero key.
      `p` and `k` are pinned to the vector's values by `requires`, only so that the
      recursive definitions are never evaluated on literals. */
  lemma ZerosUnderZeroKeyRounds4(p: State, k: bv80)
    requires p == 0x0000_0000_0000_0000 && k == 0x0000_0000_0000_0000_0000
    ensures ReferenceRounds(p, k, 25) == 0x7DB2_9209_C28A_20FA
    ensures ReferenceRounds(p, k, 26) == 0x6205_0C99_40F4_00B9
    ensures ReferenceRounds(p, k, 27) == 0x65D5_0DA2_1FBC_C09F
    ensures ReferenceRounds(p, k, 28) == 0x6A50_663C_540D_862F
    ensures ReferenceRounds(p, k, 29) == 0xC79B_8FF0_0A48_DF35
    ensures ReferenceRounds(p, k, 30) == 0x4A38_C5E0_0283_FBA1
    ensures ReferenceRounds(p, k, 31) == 0x38D2_F04C_3463_5345
  {
    ZerosUnderZeroKeyRounds3(p, k);
    ZeroKeySchedule3(k);
    ZeroKeySchedule4(k);
    ZerosUnderZeroKeyRound25();
    RoundsAfter(p, k, 25, 0xD3A0_5312_8B4D_7BB3, 0xF5E0_E839_B509_AE8F, 0x7DB2_9209_C28A_20FA);
    ZerosUnderZeroKeyRound26();
    RoundsAfter(p, k, 26, 0x7DB2_9209_C28A_20FA, 0x2B07_5EBC_1D07_36AD, 0x6205_0C99_40F4_00B9);
    ZerosUnderZeroKeyRound27();
    RoundsAfter(p, k, 27, 0x6205_0C99_40F4_00B9, 0x86BA_2560_EBD7_83AD, 0x65D5_0DA2_1FBC_C09F);
    ZerosUnderZeroKeyRound28();
    RoundsAfter(p, k, 28, 0x65D5_0DA2_1FBC_C09F, 0x8CDA_B0D7_44AC_1D77, 0x6A50_663C_540D_862F);
    ZerosUnderZeroKeyRound29();
    RoundsAfter(p, k, 29, 0x6A50_663C_540D_862F, 0x1E0E_B19B_561A_E89B, 0xC79B_8FF0_0A48_DF35);
    ZerosUnderZeroKeyRound30();
    RoundsAfter(p, k, 30, 0xC79B_8FF0_0A48_DF35, 0xD075_C3C1_D633_6ACD, 0x4A38_C5E0_0283_FBA1);
    ZerosUnderZeroKeyRound31();
    RoundsAfter(p, k, 31, 0x4A38_C5E0_0283_FBA1, 0x8BA2_7A0E_B878_3AC9, 0x38D2_F04C_3463_5345);
  }

  /** The all-zero block encrypted under the all-zero 80-bit key register.
      `p` and `k` are pinned to the vector's values by `requires`, only so that the
      recursive definitions are never evaluated on literals. */
  lemma ZerosUnderZeroKey(p: State, k: bv80)
    requires p == 0x0000_0000_0000_0000 && k == 0x0000_0000_0000_0000_0000
    ensures ReferenceEncrypt(p, k) == 0x5579_C138_7B22_8445
  {
    ZerosUnderZeroKeyRounds4(p, k);
    ZeroKeySchedule4(k);
  }

  /* Rounds 1..31 on the all-zero block under the all-one key, one by one. */

  lemma ZerosUnderOnesKeyRound1()
    ensures CipherRound(0x0000_0000_0000_0000, 0xFFFF_FFFF_FFFF_FFFF) == 0x0000_0000_FFFF_0000
  { CipherRoundIs(0x0000_0000_0000_0000, 0xFFFF_FFFF_FFFF_FFFF, 0x2222_2222_2222_2222, 0x0000_0000_FFFF_0000); }

  lemma ZerosUnderOnesKeyRound2()
    ensures CipherRound(0x0000_0000_FFFF_0000, 0x2FFF_FFFF_FFFF_FFFF) == 0x00F0_80F0_FF0F_0000
  { CipherRoundIs(0x0000_0000_FFFF_0000, 0x2FFF_FFFF_FFFF_FFFF, 0x6222_2222_CCCC_2222, 0x00F0_80F0_FF0F_0000); }

  lemma ZerosUnderOnesKeyRound3()
    ensures CipherRound(0x00F0_80F0_FF0F_0000, 0x1FFF_E5FF_FFFF_FFFE) == 0x2AD0_A2D0_592E_8001
  { CipherRoundIs(0x00F0_80F0_FF0F_0000, 0x1FFF_E5FF_FFFF_FFFE, 0x52C2_A0C2_CC2C_2221, 0x2AD0_A2D0_592E_8001); }

  lemma ZerosUnderOnesKeyRound4()
    ensures CipherRound(0x2AD0_A2D0_592E_8001, 0x7FFF_E3FF_FCBF_FFFE) == 0x08A8_26B8_33A7_0C98
  { CipherRoundIs(0x2AD0_A2D0_592E_8001, 0x7FFF_E3FF_FCBF_FFFE, 0x0062_9562_F0E5_D222, 0x08A8_26B8_33A7_0C98); }

  lemma ZerosUnderOnesKeyRound5()
    ensures CipherRound(0x08A8_26B8_33A7_0C98, 0x4FFF_EFFF_FC7F_FF95) == 0xD706_5DA3_047D_D335
  { CipherRoundIs(0x08A8_26B8_33A7_0C98, 0x4FFF_EFFF_FC7F_FF95, 0x9D0D_4E9D_4273_2BC7, 0xD706_5DA3_047D_D335); }

  lemma ZerosUnderOnesKeyRound6()
    ensures CipherRound(0xD706_5DA3_047D_D335, 0x8FFF_E9FF_FDFF_FF8D) == 0x1C42_115C_70F9_4421
  { CipherRoundIs(0xD706_5DA3_047D_D335, 0x8FFF_E9FF_FDFF_FF8D, 0x032E_8904_2E36_6483, 0x1C42_115C_70F9_4421); }

  lemma ZerosUnderOnesKeyRound7()
    ensures CipherRound(0x1C42_115C_70F9_4421, 0xFFFE_51FF_FD3F_FFBC) == 0x6F1E_1663_43D3_CBC1
  { CipherRoundIs(0x1C42_115C_70F9_4421, 0xFFFE_51FF_FD3F_FFBC, 0x1B84_9CFB_374A_88E7, 0x6F1E_1663_43D3_CBC1); }

  lemma ZerosUnderOnesKeyRound8()
    ensures CipherRound(0x6F1E_1663_43D3_CBC1, 0xEFFE_3FFF_CA3F_FFA4) == 0x564E_5F50_8ECA_A0AC
  { CipherRoundIs(0x6F1E_1663_43D3_CBC1, 0xEFFE_3FFF_CA3F_FFA4, 0x3C1C_6EE4_3E14_B9A0, 0x564E_5F50_8ECA_A0AC); }

  lemma ZerosUnderOnesKeyRound9()
    ensures CipherRound(0x564E_5F50_8ECA_A0AC, 0x3FFE_FDFF_C7FF_F943) == 0xFAE4_5E44_CF65_0AA2
  { CipherRoundIs(0x564E_5F50_8ECA_A0AC, 0x3FFE_FDFF_C7FF_F943, 0xAE8C_F6F2_9EB0_0E12, 0xFAE4_5E44_CF65_0AA2); }

  lemma ZerosUnderOnesKeyRound10()
    ensures CipherRound(0xFAE4_5E44_CF65_0AA2, 0xDFFE_87FF_DFBF_F8FB) == 0x1751_BCF5_9C3D_38B0
  { CipherRoundIs(0xFAE4_5E44_CF65_0AA2, 0xDFFE_87FF_DFBF_F8FB, 0x605F_7E88_5C7F_260E, 0x1751_BCF5_9C3D_38B0); }

  lemma ZerosUnderOnesKeyRound11()
    ensures CipherRound(0x1751_BCF5_9C3D_38B0, 0xAFE5_1BFF_D0FF_FBF2) == 0xBF86_0F79_4915_5D86
  { CipherRoundIs(0x1751_BCF5_9C3D_38B0, 0xAFE5_1BFF_D0FF_FBF2, 0x8389_FDCF_9446_4B96, 0xBF86_0F79_4915_5D86); }

  lemma ZerosUnderOnesKeyRound12()
    ensures CipherRound(0xBF86_0F79_4915_5D86, 0x0FE3_F5FC_A37F_FA1A) == 0xE47E_445F_2E7A_06DC
  { CipherRoundIs(0xBF86_0F79_4915_5D86, 0x0FE3_F5FC_A37F_FA1A, 0x8CA0_2F30_1FAF_FDE4, 0xE47E_445F_2E7A_06DC); }

  lemma ZerosUnderOnesKeyRound13()
    ensures CipherRound(0xE47E_445F_2E7A_06DC, 0x9FEF_C1FC_7EBF_9469) == 0xE34A_B26C_2B0C_9B00
  { CipherRoundIs(0xE47E_445F_2E7A_06DC, 0x9FEF_C1FC_7EBF_9469, 0xD8E5_30FB_0C40_E680, 0xE34A_B26C_2B0C_9B00); }

  lemma ZerosUnderOnesKeyRound14()
    ensures CipherRound(0xE34A_B26C_2B0C_9B00, 0xBFE8_73FD_F83F_8FD1) == 0x2274_7F8B_32F2_25FF
  { CipherRoundIs(0xE34A_B26C_2B0C_9B00, 0xBFE8_73FD_F83F_8FD1, 0x04F6_45E5_7BBB_5975, 0x2274_7F8B_32F2_25FF); }

  lemma ZerosUnderOnesKeyRound15()
    ensures CipherRound(0x2274_7F8B_32F2_25FF, 0x6E51_B7FD_0E7F_BF00) == 0x838C_6A5C_25BF_86B4
  { CipherRoundIs(0x2274_7F8B_32F2_25FF, 0x6E51_B7FD_0E7F_BF00, 0x9460_43DA_B437_EF22, 0x838C_6A5C_25BF_86B4); }

  lemma ZerosUnderOnesKeyRound16()
    ensures CipherRound(0x838C_6A5C_25BF_86B4, 0x5E3F_4DCA_36FF_A1C8) == 0x3776_CE9F_DB48_D4E6
  { CipherRoundIs(0x838C_6A5C_25BF_86B4, 0x5E3F_4DCA_36FF_A1C8, 0x778B_6DEA_5B9C_6DD4, 0x3776_CE9F_DB48_D4E6); }

  lemma ZerosUnderOnesKeyRound17()
    ensures CipherRound(0x3776_CE9F_DB48_D4E6, 0xCEFC_0BC7_E9B9_46D7) == 0x508A_585D_F1EE_3193
  { CipherRoundIs(0x3776_CE9F_DB48_D4E6, 0xCEFC_0BC7_E9B9_46D7, 0x2E3F_4003_B625_E6B5, 0x508A_585D_F1EE_3193); }

  lemma ZerosUnderOnesKeyRound18()
    ensures CipherRound(0x508A_585D_F1EE_3193, 0x2E87_39DF_8178_FD3F) == 0xA8F2_B5EF_1B32_D682
  { CipherRoundIs(0x508A_585D_F1EE_3193, 0x2E87_39DF_8178_FD3F, 0xD1C7_A536_DCEA_44F4, 0xA8F2_B5EF_1B32_D682); }

  lemma ZerosUnderOnesKeyRound19()
    ensures CipherRound(0xA8F2_B5EF_1B32_D682, 0x251B_45D0_E73B_F026) == 0x1637_547A_DB9E_E203
  { CipherRoundIs(0xA8F2_B5EF_1B32_D682, 0x251B_45D0_E73B_F026, 0x371E_2CB2_24CE_6AF9, 0x1637_547A_DB9E_E203); }

  lemma ZerosUnderOnesKeyRound20()
    ensures CipherRound(0x1637_547A_DB9E_E203, 0x43F4_E4A3_68BA_1CEE) == 0x1DD0_2721_1369_1257
  { CipherRoundIs(0x1637_547A_DB9E_E203, 0x43F4_E4A3_68BA_1CEE, 0x004B_8C7E_8B69_2117, 0x1DD0_2721_1369_1257); }

  lemma ZerosUnderOnesKeyRound21()
    ensures CipherRound(0x1DD0_2721_1369_1257, 0x7FC0_887E_9C94_6D1D) == 0x980B_7819_CDF5_289B
  { CipherRoundIs(0x1DD0_2721_1369_1257, 0x7FC0_887E_9C94_6D1D, 0xA65C_F202_3227_D29F, 0x980B_7819_CDF5_289B); }

  lemma ZerosUnderOnesKeyRound22()
    ensures CipherRound(0x980B_7819_CDF5_289B, 0xF873_AFF8_110F_D398) == 0xE417_6DD2_98B9_3F91
  { CipherRoundIs(0x980B_7819_CDF5_289B, 0xF873_AFF8_110F_D398, 0xACD3_7D15_742F_28CB, 0xE417_6DD2_98B9_3F91); }

  lemma ZerosUnderOnesKeyRound23()
    ensures CipherRound(0xE417_6DD2_98B9_3F91, 0xC1B4_7F0E_75FF_022A) == 0x303B_AF44_B65C_3AEC
  { CipherRoundIs(0xE417_6DD2_98B9_3F91, 0xC1B4_7F0E_75FF_022A, 0x60FB_5674_179A_B788, 0x303B_AF44_B65C_3AEC); }

  lemma ZerosUnderOnesKeyRound24()
    ensures CipherRound(0x303B_AF44_B65C_3AEC, 0x0F4E_7836_8FE1_CEB4) == 0xA6E4_2F50_C9D9_AE95
  { CipherRoundIs(0x303B_AF44_B65C_3AEC, 0x0F4E_7836_8FE1_CEB4, 0xB2D0_7DD6_BE87_2903, 0xA6E4_2F50_C9D9_AE95); }

  lemma ZerosUnderOnesKeyRound25()
    ensures CipherRound(0xA6E4_2F50_C9D9_AE95, 0x3C08_A1E9_CF06_D1F0) == 0xC3CA_D1A8_C976_6C28
  { CipherRoundIs(0xA6E4_2F50_C9D9_AE95, 0x3C08_A1E9_CF06_D1F0, 0xEF14_318E_CA72_D2A0, 0xC3CA_D1A8_C976_6C28); }

  lemma ZerosUnderOnesKeyRound26()
    ensures CipherRound(0xC3CA_D1A8_C976_6C28, 0xC73A_C781_143D_39EC) == 0xD531_9BC2_27C0_48E1
  { CipherRoundIs(0xC3CA_D1A8_C976_6C28, 0xC73A_C781_143D_39EC, 0xC92C_5A6E_7798_0049, 0xD531_9BC2_27C0_48E1); }

  lemma ZerosUnderOnesKeyRound27()
    ensures CipherRound(0xD531_9BC2_27C0_48E1, 0x3B47_D8E7_58F0_228A) == 0x3CBF_2294_166E_ECA4
  { CipherRoundIs(0xD531_9BC2_27C0_48E1, 0x3B47_D8E7_58F0_228A, 0x11DA_9B60_D2BC_AFA8, 0x3CBF_2294_166E_ECA4); }

  lemma ZerosUnderOnesKeyRound28()
    ensures CipherRound(0x3CBF_2294_166E_ECA4, 0x04E7_A768_FB1C_EB13) == 0x802F_017D_DA50_D8E5
  { CipherRoundIs(0x3CBF_2294_166E_ECA4, 0x04E7_A768_FB1C_EB13, 0xB303_3024_17D6_CD8D, 0x802F_017D_DA50_D8E5); }

  lemma ZerosUnderOnesKeyRound29()
    ensures CipherRound(0x802F_017D_DA50_D8E5, 0xD08A_209C_F4ED_1F6D) == 0x6024_6D9C_2893_2757
  { CipherRoundIs(0x802F_017D_DA50_D8E5, 0xD08A_209C_F4ED_1F6D, 0x0CF0_6515_6187_4D33, 0x6024_6D9C_2893_2757); }

  lemma ZerosUnderOnesKeyRound30()
    ensures CipherRound(0x6024_6D9C_2893_2757, 0x83AC_5A11_4413_9E93) == 0x4C9D_0556_7BA4_FF21
  { CipherRoundIs(0x6024_6D9C_2893_2757, 0x83AC_5A11_4413_9E93, 0x1B33_BD37_A43C_8E49, 0x4C9D_0556_7BA4_FF21); }

  lemma ZerosUnderOnesKeyRound31()
    ensures CipherRound(0x4C9D_0556_7BA4_FF21, 0xA47D_B075_8B42_288D) == 0x1956_124F_439A_E12E
  { CipherRoundIs(0x4C9D_0556_7BA4_FF21, 0xA47D_B075_8B42_288D, 0x131C_806B_2C1A_7DF4, 0x1956_124F_439A_E12E); }

  /** The state after rounds 1..8 on the all-zero block under the all-one key.
      `p` and `k` are pinned to the vector's values by `requires`, only so that the
      recursive definitions are never evaluated on literals. */
  lemma ZerosUnderOnesKeyRounds1(p: State, k: bv80)
    requires p == 0x0000_0000_0000_0000 && k == 0xFFFF_FFFF_FFFF_FFFF_FFFF
    ensures ReferenceRounds(p, k, 1) == 0x0000_0000_FFFF_0000
    ensures ReferenceRounds(p, k, 2) == 0x00F0_80F0_FF0F_0000
    ensures ReferenceRounds(p, k, 3) == 0x2AD0_A2D0_592E_8001
    ensures ReferenceRounds(p, k, 4) == 0x08A8_26B8_33A7_0C98
    ensures ReferenceRounds(p, k, 5) == 0xD706_5DA3_047D_D335
    ensures ReferenceRounds(p, k, 6) == 0x1C42_115C_70F9_4421
    ensures ReferenceRounds(p, k, 7) == 0x6F1E_1663_43D3_CBC1
    ensures ReferenceRounds(p, k, 8) == 0x564E_5F50_8ECA_A0AC
  {
    OnesKeySchedule1(k);
    ZerosUnderOnesKeyRound1();
    RoundsAfter(p, k, 1, 0x0000_0000_0000_0000, 0xFFFF_FFFF_FFFF_FFFF, 0x0000_0000_FFFF_0000);
    ZerosUnderOnesKeyRound2();
    RoundsAfter(p, k, 2, 0x0000_0000_FFFF_0000, 0x2FFF_FFFF_FFFF_FFFF, 0x00F0_80F0_FF0F_0000);
    ZerosUnderOnesKeyRound3();
    RoundsAfter(p, k, 3, 0x00F0_80F0_FF0F_0000, 0x1FFF_E5FF_FFFF_FFFE, 0x2AD0_A2D0_592E_8001);
    ZerosUnderOnesKeyRound4();
    RoundsAfter(p, k, 4, 0x2AD0_A2D0_592E_8001, 0x7FFF_E3FF_FCBF_FFFE, 0x08A8_26B8_33A7_0C98);
    ZerosUnderOnesKeyRound5();
    RoundsAfter(p, k, 5, 0x08A8_26B8_33A7_0C98, 0x4FFF_EFFF_FC7F_FF95, 0xD706_5DA3_047D_D335);
    ZerosUnderOnesKeyRound6();
    RoundsAfter(p, k, 6, 0xD706_5DA3_047D_D335, 0x8FFF_E9FF_FDFF_FF8D, 0x1C42_115C_70F9_4421);
    ZerosUnderOnesKeyRound7();
    RoundsAfter(p, k, 7, 0x1C42_115C_70F9_4421, 0xFFFE_51FF_FD3F_FFBC, 0x6F1E_1663_43D3_CBC1);
    ZerosUnderOnesKeyRound8();
    RoundsAfter(p, k, 8, 0x6F1E_1663_43D3_CBC1, 0xEFFE_3FFF_CA3F_FFA4, 0x564E_5F50_8ECA_A0AC);
  }

  /** The state after rounds 9..16 on the all-zero block under the all-one key.
      `p` and `k` are pinned to the vector's values by `requires`, only so that the
      recursive definitions are never evaluated on literals. */
  lemma ZerosUnderOnesKeyRounds2(p: State, k: bv80)
    requires p == 0x0000_0000_0000_0000 && k == 0xFFFF_FFFF_FFFF_FFFF_FFFF
    ensures ReferenceRounds(p, k, 9) == 0xFAE4_5E44_CF65_0AA2
    ensures ReferenceRounds(p, k, 10) == 0x1751_BCF5_9C3D_38B0
    ensures ReferenceRounds(p, k, 11) == 0xBF86_0F79_4915_5D86
    ensures ReferenceRounds(p, k, 12) == 0xE47E_445F_2E7A_06DC
    ensures ReferenceRounds(p, k, 13) == 0xE34A_B26C_2B0C_9B00
    ensures ReferenceRounds(p, k, 14) == 0x2274_7F8B_32F2_25FF
    ensures ReferenceRounds(p, k, 15) == 0x838C_6A5C_25BF_86B4
    ensures ReferenceRounds(p, k, 16) == 0x3776_CE9F_DB48_D4E6
  {
    ZerosUnderOnesKeyRounds1(p, k);
    OnesKeySchedule1(k);
    OnesKeySchedule2(k);
    ZerosUnderOnesKeyRound9();
    RoundsAfter(p, k, 9, 0x564E_5F50_8ECA_A0AC, 0x3FFE_FDFF_C7FF_F943, 0xFAE4_5E44_CF65_0AA2);
    ZerosUnderOnesKeyRound10();
    RoundsAfter(p, k, 10, 0xFAE4_5E44_CF65_0AA2, 0xDFFE_87FF_DFBF_F8FB, 0x1751_BCF5_9C3D_38B0);
    ZerosUnderOnesKeyRound11();
    RoundsAfter(p, k, 11, 0x1751_BCF5_9C3D_38B0, 0xAFE5_1BFF_D0FF_FBF2, 0xBF86_0F79_4915_5D86);
    ZerosUnderOnesKeyRound12();
    RoundsAfter(p, k, 12, 0xBF86_0F79_4915_5D86, 0x0FE3_F5FC_A37F_FA1A, 0xE47E_445F_2E7A_06DC);
    ZerosUnderOnesKeyRound13();
    RoundsAfter(p, k, 13, 0xE47E_445F_2E7A_06DC, 0x9FEF_C1FC_7EBF_9469, 0xE34A_B26C_2B0C_9B00);
    ZerosUnderOnesKeyRound14();
    RoundsAfter(p, k, 14, 0xE34A_B26C_2B0C_9B00, 0xBFE8_73FD_F83F_8FD1, 0x2274_7F8B_32F2_25FF);
    ZerosUnderOnesKeyRound15();
    RoundsAfter(p, k, 15, 0x2274_7F8B_32F2_25FF, 0x6E51_B7FD_0E7F_BF00, 0x838C_6A5C_25BF_86B4);
    ZerosUnderOnesKeyRound16();
    RoundsAfter(p, k, 16, 0x838C_6A5C_25BF_86B4, 0x5E3F_4DCA_36FF_A1C8, 0x3776_CE9F_DB48_D4E6);
  }

  /** The state after rounds 17..24 on the all-zero block under the all-one key.
      `p` and `k` are pinned to the vector's values by `requires`, only so that the
      recursive definitions are never evaluated on literals. */
  lemma ZerosUnderOnesKeyRounds3(p: State, k: bv80)
    requires p == 0x0000_0000_0000_0000 && k == 0xFFFF_FFFF_FFFF_FFFF_FFFF
    ensures ReferenceRounds(p, k, 17) == 0x508A_585D_F1EE_3193
    ensures ReferenceRounds(p, k, 18) == 0xA8F2_B5EF_1B32_D682
    ensures ReferenceRounds(p, k, 19) == 0x1637_547A_DB9E_E203
    ensures ReferenceRounds(p, k, 20) == 0x1DD0_2721_1369_1257
    ensures ReferenceRounds(p, k, 21) == 0x980B_7819_CDF5_289B
    ensures ReferenceRounds(p, k, 22) == 0xE417_6DD2_98B9_3F91
    ensures ReferenceRounds(p, k, 23) == 0x303B_AF44_B65C_3AEC
    ensures ReferenceRounds(p, k, 24) == 0xA6E4_2F50_C9D9_AE95
  {
    ZerosUnderOnesKeyRounds2(p, k);
    OnesKeySchedule2(k);
    OnesKeySchedule3(k);
    ZerosUnderOnesKeyRound17();
    RoundsAfter(p, k, 17, 0x3776_CE9F_DB48_D4E6, 0xCEFC_0BC7_E9B9_46D7, 0x508A_585D_F1EE_3193);
    ZerosUnderOnesKeyRound18();
    RoundsAfter(p, k, 18, 0x508A_585D_F1EE_3193, 0x2E87_39DF_8178_FD3F, 0xA8F2_B5EF_1B32_D682);
    ZerosUnderOnesKeyRound19();
    RoundsAfter(p, k, 19, 0xA8F2_B5EF_1B32_D682, 0x251B_45D0_E73B_F026, 0x1637_547A_DB9E_E203);
    ZerosUnderOnesKeyRound20();
    RoundsAfter(p, k, 20, 0x1637_547A_DB9E_E203, 0x43F4_E4A3_68BA_1CEE, 0x1DD0_2721_1369_1257);
    ZerosUnderOnesKeyRound21();
    RoundsAfter(p, k, 21, 0x1DD0_2721_1369_1257, 0x7FC0_887E_9C94_6D1D, 0x980B_7819_CDF5_289B);
    ZerosUnderOnesKeyRound22();
    RoundsAfter(p, k, 22, 0x980B_7819_CDF5_289B, 0xF873_AFF8_110F_D398, 0xE417_6DD2_98B9_3F91);
    ZerosUnderOnesKeyRound23();
    RoundsAfter(p, k, 23, 0xE417_6DD2_98B9_3F91, 0xC1B4_7F0E_75FF_022A, 0x303B_AF44_B65C_3AEC);
    ZerosUnderOnesKeyRound24();
    RoundsAfter(p, k, 24, 0x303B_AF44_B65C_3AEC, 0x0F4E_7836_8FE1_CEB4, 0xA6E4_2F50_C9D9_AE95);
  }

  /** The state after rounds 25..31 on the all-zero block under the all-one key.
      `p` and `k` are pinned to the vector's values by `requires`, only so that the
      recursive definitions are never evaluated on literals. */
  lemma ZerosUnderOnesKeyRounds4(p: State, k: bv80)
    requires p == 0x0000_0000_0000_0000 && k == 0xFFFF_FFFF_FFFF_FFFF_FFFF
    ensures ReferenceRounds(p, k, 25) == 0xC3CA_D1A8_C976_6C28
    ensures ReferenceRounds(p, k, 26) == 0xD531_9BC2_27C0_48E1
    ensures ReferenceRounds(p, k, 27) == 0x3CBF_2294_166E_ECA4
    ensures ReferenceRounds(p, k, 28) == 0x802F_017D_DA50_D8E5
    ensures ReferenceRounds(p, k, 29) == 0x6024_6D9C_2893_2757
    ensures ReferenceRounds(p, k, 30) == 0x4C9D_0556_7BA4_FF21
    ensures ReferenceRounds(p, k, 31) == 0x1956_124F_439A_E12E
  {
    ZerosUnderOnesKeyRounds3(p, k);
    OnesKeySchedule3(k);
    OnesKeySchedule4(k);
    ZerosUnderOnesKeyRound25();
    RoundsAfter(p, k, 25, 0xA6E4_2F50_C9D9_AE95, 0x3C08_A1E9_CF06_D1F0, 0xC3CA_D1A8_C976_6C28);
    ZerosUnderOnesKeyRound26();
    RoundsAfter(p, k, 26, 0xC3CA_D1A8_C976_6C28, 0xC73A_C781_143D_39EC, 0xD531_9BC2_27C0_48E1);
    ZerosUnderOnesKeyRound27();
    RoundsAfter(p, k, 27, 0xD531_9BC2_27C0_48E1, 0x3B47_D8E7_58F0_228A, 0x3CBF_2294_166E_ECA4);
    ZerosUnderOnesKeyRound28();
    RoundsAfter(p, k, 28, 0x3CBF_2294_166E_ECA4, 0x04E7_A768_FB1C_EB13, 0x802F_017D_DA50_D8E5);
    ZerosUnderOnesKeyRound29();
    RoundsAfter(p, k, 29, 0x802F_017D_DA50_D8E5, 0xD08A_209C_F4ED_1F6D, 0x6024_6D9C_2893_2757);
    ZerosUnderOnesKeyRound30();
    RoundsAfter(p, k, 30, 0x6024_6D9C_2893_2757, 0x83AC_5A11_4413_9E93, 0x4C9D_0556_7BA4_FF21);
    ZerosUnderOnesKeyRound31();
    RoundsAfter(p, k, 31, 0x4C9D_0556_7BA4_FF21, 0xA47D_B075_8B42_288D, 0x1956_124F_439A_E12E);
  }

  /** The all-zero block encrypted under the all-one 80-bit key register.
      `p` and `k` are pinned to the vector's values by `requires`, only so that the
      recursive definitions are never evaluated on literals. */
  lemma ZerosUnderOnesKey(p: State, k: bv80)
    requires p == 0x0000_0000_0000_0000 && k == 0xFFFF_FFFF_FFFF_FFFF_FFFF
    ensures ReferenceEncrypt(p, k) == 0xE72C_46C0_F594_5049
  {
    ZerosUnderOnesKeyRounds4(p, k);
    OnesKeySchedule4(k);
  }

  /* Rounds 1..31 on the all-one block under the all-zero key, one by one. */

  lemma OnesUnderZeroKeyRound1()
    ensures CipherRound(0xFFFF_FFFF_FFFF_FFFF, 0x0000_0000_0000_0000) == 0x0000_0000_FFFF_0000
  { CipherRoundIs(0xFFFF_FFFF_FFFF_FFFF, 0x0000_0000_0000_0000, 0x2222_2222_2222_2222, 0x0000_0000_FFFF_0000); }

  lemma OnesUnderZeroKeyRound2()
    ensures CipherRound(0x0000_0000_FFFF_0000, 0xC000_0000_0000_0000) == 0x7F0F_FF0F_00F0_0000
  { CipherRoundIs(0x0000_0000_FFFF_0000, 0xC000_0000_0000_0000, 0x4CCC_CCCC_2222_CCCC, 0x7F0F_FF0F_00F0_0000); }

  lemma OnesUnderZeroKeyRound3()
    ensures CipherRound(0x7F0F_FF0F_00F0_0000, 0x5000_1800_0000_0001) == 0x26DE_A6DF_D120_0C01
  { CipherRoundIs(0x7F0F_FF0F_00F0_0000, 0x5000_1800_0000_0001, 0x62C2_1DC2_CC2C_CCC5, 0x26DE_A6DF_D120_0C01); }

  lemma OnesUnderZeroKeyRound4()
    ensures CipherRound(0x26DE_A6DF_D120_0C01, 0x6000_0A00_0300_0001) == 0xC81B_2EFF_6BE0_BA80
  { CipherRoundIs(0x26DE_A6DF_D120_0C01, 0x6000_0A00_0300_0001, 0x9A71_F472_766C_C4CC, 0xC81B_2EFF_6BE0_BA80); }

  lemma OnesUnderZeroKeyRound5()
    ensures CipherRound(0xC81B_2EFF_6BE0_BA80, 0xB000_0C00_0140_0062) == 0x90FC_AC75_4FE5_E066
  { CipherRoundIs(0xC81B_2EFF_6BE0_BA80, 0xB000_0C00_0140_0062, 0xD358_6622_AFFC_8F16, 0x90FC_AC75_4FE5_E066); }

  lemma OnesUnderZeroKeyRound6()
    ensures CipherRound(0x90FC_AC75_4FE5_E066, 0x9000_1600_0180_002A) == 0xCEA6_D605_2420_06CA
  { CipherRoundIs(0x90FC_AC75_4FE5_E066, 0x9000_1600_0180_002A, 0xCC24_8FD0_91A0_1C94, 0xCEA6_D605_2420_06CA); }

  lemma OnesUnderZeroKeyRound7()
    ensures CipherRound(0xCEA6_D605_2420_06CA, 0x0001_9200_02C0_0033) == 0x3E5D_B299_20C7_7C20
  { CipherRoundIs(0xCEA6_D605_2420_06CA, 0x0001_9200_02C0_0033, 0x41FD_99C0_6A1C_CA2E, 0x3E5D_B299_20C7_7C20); }

  lemma OnesUnderZeroKeyRound8()
    ensures CipherRound(0x3E5D_B299_20C7_7C20, 0xA000_A000_3240_005B) == 0x831B_9FDE_9760_58BA
  { CipherRoundIs(0x3E5D_B299_20C7_7C20, 0xA000_A000_3240_005B, 0xE107_56EE_563D_D4D8, 0x831B_9FDE_9760_58BA); }

  lemma OnesUnderZeroKeyRound9()
    ensures CipherRound(0x831B_9FDE_9760_58BA, 0xD000_D400_1400_064C) == 0x5C71_2210_42E3_6BC4
  { CipherRoundIs(0x831B_9FDE_9760_58BA, 0xD000_D400_1400_064C, 0x0B58_9871_3BAC_012A, 0x5C71_2210_42E3_6BC4); }

  lemma OnesUnderZeroKeyRound10()
    ensures CipherRound(0x5C71_2210_42E3_6BC4, 0x3001_7A00_1A80_0284) == 0xB13F_7305_847C_2652
  { CipherRoundIs(0x5C71_2210_42E3_6BC4, 0x3001_7A00_1A80_0284, 0xA4DC_035C_03AB_AE9C, 0xB13F_7305_847C_2652); }

  lemma OnesUnderZeroKeyRound11()
    ensures CipherRound(0xB13F_7305_847C_2652, 0xE019_2600_2F40_0355) == 0x12E3_629B_30A8_40A1
  { CipherRoundIs(0xB13F_7305_847C_2652, 0xE019_2600_2F40_0355, 0x056A_00C0_F8B4_60CD, 0x12E3_629B_30A8_40A1); }

  lemma OnesUnderZeroKeyRound12()
    ensures CipherRound(0x12E3_629B_30A8_40A1, 0xF00A_1C03_24C0_05ED) == 0x1A6A_5A81_5330_ADDA
  { CipherRoundIs(0x12E3_629B_30A8_40A1, 0xF00A_1C03_24C0_05ED, 0x161E_D1E3_59A3_9094, 0x1A6A_5A81_5330_ADDA); }

  lemma OnesUnderZeroKeyRound13()
    ensures CipherRound(0x1A6A_5A81_5330_ADDA, 0x800D_5E01_4380_649E) == 0xFD77_D9DC_E204_5683
  { CipherRoundIs(0x1A6A_5A81_5330_ADDA, 0x800D_5E01_4380_649E, 0xEFAD_C93C_5C8C_4E99, 0xFD77_D9DC_E204_5683); }

  lemma OnesUnderZeroKeyRound14()
    ensures CipherRound(0xFD77_D9DC_E204_5683, 0x4017_B001_ABC0_2876) == 0xBCD8_5768_6F42_439C
  { CipherRoundIs(0xFD77_D9DC_E204_5683, 0x4017_B001_ABC0_2876, 0x87AC_AE77_9E49_D120, 0xBCD8_5768_6F42_439C); }

  lemma OnesUnderZeroKeyRound15()
    ensures CipherRound(0xBCD8_5768_6F42_439C, 0x7192_6802_F600_357F) == 0x3BED_D1D8_5FD5_792B
  { CipherRoundIs(0xBCD8_5768_6F42_439C, 0x7192_6802_F600_357F, 0x479F_B2AF_EE96_DA1B, 0x3BED_D1D8_5FD5_792B); }

  lemma OnesUnderZeroKeyRound16()
    ensures CipherRound(0x3BED_D1D8_5FD5_792B, 0x10A1_CE32_4D00_5EC7) == 0x6104_99ED_8568_2BA6
  { CipherRoundIs(0x3BED_D1D8_5FD5_792B, 0x10A1_CE32_4D00_5EC7, 0x6894_521F_5670_6D14, 0x6104_99ED_8568_2BA6); }

  lemma OnesUnderZeroKeyRound17()
    ensures CipherRound(0x6104_99ED_8568_2BA6, 0x20D5_E214_39C6_49A8) == 0x8DAA_7966_232C_F831
  { CipherRoundIs(0x6104_99ED_8568_2BA6, 0x20D5_E214_39C6_49A8, 0x9575_D82E_84F1_A6C1, 0x8DAA_7966_232C_F831); }

  lemma OnesUnderZeroKeyRound18()
    ensures CipherRound(0x8DAA_7966_232C_F831, 0xC17B_041A_BC42_8730) == 0x8AAA_7F8B_24E4_BE19
  { CipherRoundIs(0x8DAA_7966_232C_F831, 0xC17B_041A_BC42_8730, 0x9475_D7D4_E2A1_D2C5, 0x8AAA_7F8B_24E4_BE19); }

  lemma OnesUnderZeroKeyRound19()
    ensures CipherRound(0x8AAA_7F8B_24E4_BE19, 0xC926_B82F_6083_5781) == 0xC7F6_1E16_6227_E7D9
  { CipherRoundIs(0x8AAA_7F8B_24E4_BE19, 0xC926_B82F_6083_5781, 0x9B34_4DF9_99AD_1EE3, 0xC7F6_1E16_6227_E7D9); }

  lemma OnesUnderZeroKeyRound20()
    ensures CipherRound(0xC7F6_1E16_6227_E7D9, 0x6A1C_D924_D705_EC19) == 0x968D_DD3B_D330_F600
  { CipherRoundIs(0xC7F6_1E16_6227_E7D9, 0x6A1C_D924_D705_EC19, 0xF71F_4DB6_8066_C84C, 0x968D_DD3B_D330_F600); }

  lemma OnesUnderZeroKeyRound21()
    ensures CipherRound(0x968D_DD3B_D330_F600, 0xBD5E_0D43_9B24_9AEA) == 0x5699_AE25_B949_3BF3
  { CipherRoundIs(0x968D_DD3B_D330_F600, 0xBD5E_0D43_9B24_9AEA, 0x687B_7CD3_9359_A41F, 0x5699_AE25_B949_3BF3); }

  lemma OnesUnderZeroKeyRound22()
    ensures CipherRound(0x5699_AE25_B949_3BF3, 0x07B0_77AB_C1A8_736E) == 0x148A_7C93_3E47_4BFD
  { CipherRoundIs(0x5699_AE25_B949_3BF3, 0x07B0_77AB_C1A8_736E, 0x056E_7E31_D315_93E7, 0x148A_7C93_3E47_4BFD); }

  lemma OnesUnderZeroKeyRound23()
    ensures CipherRound(0x148A_7C93_3E47_4BFD, 0x426B_A0F6_0EF5_783E) == 0x42ED_1C52_4A9D_388D
  { CipherRoundIs(0x148A_7C93_3E47_4BFD, 0x426B_A0F6_0EF5_783E, 0x0A15_74A0_BC86_BB4B, 0x42ED_1C52_4A9D_388D); }

  lemma OnesUnderZeroKeyRound24()
    ensures CipherRound(0x42ED_1C52_4A9D_388D, 0x41CD_A84D_741E_C1D5) == 0xDC94_B204_61BD_46F1
  { CipherRoundIs(0x42ED_1C52_4A9D_388D, 0x41CD_A84D_741E_C1D5, 0xCB6C_8952_B13B_2E03, 0xDC94_B204_61BD_46F1); }

  lemma OnesUnderZeroKeyRound25()
    ensures CipherRound(0xDC94_B204_61BD_46F1, 0xF5E0_E839_B509_AE8F) == 0x7672_E582_C784_37DF
  { CipherRoundIs(0xDC94_B204_61BD_46F1, 0xF5E0_E839_B509_AE8F, 0x6ED9_0FB7_7989_13D1, 0x7672_E582_C784_37DF); }

  lemma OnesUnderZeroKeyRound26()
    ensures CipherRound(0x7672_E582_C784_37DF, 0x2B07_5EBC_1D07_36AD) == 0x2E5A_60CF_42F1_63F6
  { CipherRoundIs(0x7672_E582_C784_37DF, 0x2B07_5EBC_1D07_36AD, 0x07D0_88B1_7F3B_C5D6, 0x2E5A_60CF_42F1_63F6); }

  lemma OnesUnderZeroKeyRound27()
    ensures CipherRound(0x2E5A_60CF_42F1_63F6, 0x86BA_2560_EBD7_83AD) == 0x9AD5_92E4_C3F0_EA88
  { CipherRoundIs(0x2E5A_60CF_42F1_63F6, 0x86BA_2560_EBD7_83AD, 0xF31C_90F2_FE6A_1C08, 0x9AD5_92E4_C3F0_EA88); }

  lemma OnesUnderZeroKeyRound28()
    ensures CipherRound(0x9AD5_92E4_C3F0_EA88, 0x8CDA_B0D7_44AC_1D77) == 0x6344_AC54_5F8B_83C4
  { CipherRoundIs(0x9AD5_92E4_C3F0_EA88, 0x8CDA_B0D7_44AC_1D77, 0x5AC2_66BB_3D04_2D22, 0x6344_AC54_5F8B_83C4); }

  lemma OnesUnderZeroKeyRound29()
    ensures CipherRound(0x6344_AC54_5F8B_83C4, 0x1E0E_B19B_561A_E89B) == 0xB0EC_DEF0_5569_FC10
  { CipherRoundIs(0x6344_AC54_5F8B_83C4, 0x1E0E_B19B_561A_E89B, 0xD79F_5742_CEE5_A802, 0xB0EC_DEF0_5569_FC10); }

  lemma OnesUnderZeroKeyRound30()
    ensures CipherRound(0xB0EC_DEF0_5569_FC10, 0xD075_C3C1_D633_6ACD) == 0xF25C_7D1B_B6DF_0FD3
  { CipherRoundIs(0xB0EC_DEF0_5569_FC10, 0xD075_C3C1_D633_6ACD, 0xACEE_57B5_3B0F_EA77, 0xF25C_7D1B_B6DF_0FD3); }

  lemma OnesUnderZeroKeyRound31()
    ensures CipherRound(0xF25C_7D1B_B6DF_0FD3, 0x8BA2_7A0E_B878_3AC9) == 0xCCB9_CEB3_6029_967B
  { CipherRoundIs(0xF25C_7D1B_B6DF_0FD3, 0x8BA2_7A0E_B878_3AC9, 0xDE21_CD50_C1FD_B05F, 0xCCB9_CEB3_6029_967B); }

  /** The state after rounds 1..8 on the all-one block under the all-zero key.
      `p` and `k` are pinned to the vector's values by `requires`, only so that the
      recursive definitions are never evaluated on literals. */
  lemma OnesUnderZeroKeyRounds1(p: State, k: bv80)
    requires p == 0xFFFF_FFFF_FFFF_FFFF && k == 0x0000_0000_0000_0000_0000
    ensures ReferenceRounds(p, k, 1) == 0x0000_0000_FFFF_0000
    ensures ReferenceRounds(p, k, 2) == 0x7F0F_FF0F_00F0_0000
    ensures ReferenceRounds(p, k, 3) == 0x26DE_A6DF_D120_0C01
    ensures ReferenceRounds(p, k, 4) == 0xC81B_2EFF_6BE0_BA80
    ensures ReferenceRounds(p, k, 5) == 0x90FC_AC75_4FE5_E066
    ensures ReferenceRounds(p, k, 6) == 0xCEA6_D605_2420_06CA
    ensures ReferenceRounds(p, k, 7) == 0x3E5D_B299_20C7_7C20
    ensures ReferenceRounds(p, k, 8) == 0x831B_9FDE_9760_58BA
  {
    ZeroKeySchedule1(k);
    OnesUnderZeroKeyRound1();
    RoundsAfter(p, k, 1, 0xFFFF_FFFF_FFFF_FFFF, 0x0000_0000_0000_0000, 0x0000_0000_FFFF_0000);
    OnesUnderZeroKeyRound2();
    RoundsAfter(p, k, 2, 0x0000_0000_FFFF_0000, 0xC000_0000_0000_0000, 0x7F0F_FF0F_00F0_0000);
    OnesUnderZeroKeyRound3();
    RoundsAfter(p, k, 3, 0x7F0F_FF0F_00F0_0000, 0x5000_1800_0000_0001, 0x26DE_A6DF_D120_0C01);
    OnesUnderZeroKeyRound4();
    RoundsAfter(p, k, 4, 0x26DE_A6DF_D120_0C01, 0x6000_0A00_0300_0001, 0xC81B_2EFF_6BE0_BA80);
    OnesUnderZeroKeyRound5();
    RoundsAfter(p, k, 5, 0xC81B_2EFF_6BE0_BA80, 0xB000_0C00_0140_0062, 0x90FC_AC75_4FE5_E066);
    OnesUnderZeroKeyRound6();
    RoundsAfter(p, k, 6, 0x90FC_AC75_4FE5_E066, 0x9000_1600_0180_002A, 0xCEA6_D605_2420_06CA);
    OnesUnderZeroKeyRound7();
    RoundsAfter(p, k, 7, 0xCEA6_D605_2420_06CA, 0x0001_9200_02C0_0033, 0x3E5D_B299_20C7_7C20);
    OnesUnderZeroKeyRound8();
    RoundsAfter(p, k, 8, 0x3E5D_B299_20C7_7C20, 0xA000_A000_3240_005B, 0x831B_9FDE_9760_58BA);
  }

  /** The state after rounds 9..16 on the all-one block under the all-zero key.
      `p` and `k` are pinned to the vector's values by `requires`, only so that the
      recursive definitions are never evaluated on literals. */
  lemma OnesUnderZeroKeyRounds2(p: State, k: bv80)
    requires p == 0xFFFF_FFFF_FFFF_FFFF && k == 0x0000_0000_0000_0000_0000
    ensures ReferenceRounds(p, k, 9) == 0x5C71_2210_42E3_6BC4
    ensures ReferenceRounds(p, k, 10) == 0xB13F_7305_847C_2652
    ensures ReferenceRounds(p, k, 11) == 0x12E3_629B_30A8_40A1
    ensures ReferenceRounds(p, k, 12) == 0x1A6A_5A81_5330_ADDA
    ensures ReferenceRounds(p, k, 13) == 0xFD77_D9DC_E204_5683
    ensures ReferenceRounds(p, k, 14) == 0xBCD8_5768_6F42_439C
    ensures ReferenceRounds(p, k, 15) == 0x3BED_D1D8_5FD5_792B
    ensures ReferenceRounds(p, k, 16) == 0x6104_99ED_8568_2BA6
  {
    OnesUnderZeroKeyRounds1(p, k);
    ZeroKeySchedule1(k);
    ZeroKeySchedule2(k);
    OnesUnderZeroKeyRound9();
    RoundsAfter(p, k, 9, 0x831B_9FDE_9760_58BA, 0xD000_D400_1400_064C, 0x5C71_2210_42E3_6BC4);
    OnesUnderZeroKeyRound10();
    RoundsAfter(p, k, 10, 0x5C71_2210_42E3_6BC4, 0x3001_7A00_1A80_0284, 0xB13F_7305_847C_2652);
    OnesUnderZeroKeyRound11();
    RoundsAfter(p, k, 11, 0xB13F_7305_847C_2652, 0xE019_2600_2F40_0355, 0x12E3_629B_30A8_40A1);
    OnesUnderZeroKeyRound12();
    RoundsAfter(p, k, 12, 0x12E3_629B_30A8_40A1, 0xF00A_1C03_24C0_05ED, 0x1A6A_5A81_5330_ADDA);
    OnesUnderZeroKeyRound13();
    RoundsAfter(p, k, 13, 0x1A6A_5A81_5330_ADDA, 0x800D_5E01_4380_649E, 0xFD77_D9DC_E204_5683);
    OnesUnderZeroKeyRound14();
    RoundsAfter(p, k, 14, 0xFD77_D9DC_E204_5683, 0x4017_B001_ABC0_2876, 0xBCD8_5768_6F42_439C);
    OnesUnderZeroKeyRound15();
    RoundsAfter(p, k, 15, 0xBCD8_5768_6F42_439C, 0x7192_6802_F600_357F, 0x3BED_D1D8_5FD5_792B);
    OnesUnderZeroKeyRound16();
    RoundsAfter(p, k, 16, 0x3BED_D1D8_5FD5_792B, 0x10A1_CE32_4D00_5EC7, 0x6104_99ED_8568_2BA6);
  }

  /** The state after rounds 17..24 on the all-one block under the all-zero key.
      `p` and `k` are pinned to the vector's values by `requires`, only so that the
      recursive definitions are never evaluated on literals. */
  lemma OnesUnderZeroKeyRounds3(p: State, k: bv80)
    requires p == 0xFFFF_FFFF_FFFF_FFFF && k == 0x0000_0000_0000_0000_0000
    ensures ReferenceRounds(p, k, 17) == 0x8DAA_7966_232C_F831
    ensures ReferenceRounds(p, k, 18) == 0x8AAA_7F8B_24E4_BE19
    ensures ReferenceRounds(p, k, 19) == 0xC7F6_1E16_6227_E7D9
    ensures ReferenceRounds(p, k, 20) == 0x968D_DD3B_D330_F600
    ensures ReferenceRounds(p, k, 21) == 0x5699_AE25_B949_3BF3
    ensures ReferenceRounds(p, k, 22) == 0x148A_7C93_3E47_4BFD
    ensures ReferenceRounds(p, k, 23) == 0x42ED_1C52_4A9D_388D
    ensures ReferenceRounds(p, k, 24) == 0xDC94_B204_61BD_46F1
  {
    OnesUnderZeroKeyRounds2(p, k);
    ZeroKeySchedule2(k);
    ZeroKeySchedule3(k);
    OnesUnderZeroKeyRound17();
    RoundsAfter(p, k, 17, 0x6104_99ED_8568_2BA6, 0x20D5_E214_39C6_49A8, 0x8DAA_7966_232C_F831);
    OnesUnderZeroKeyRound18();
    RoundsAfter(p, k, 18, 0x8DAA_7966_232C_F831, 0xC17B_041A_BC42_8730, 0x8AAA_7F8B_24E4_BE19);
    OnesUnderZeroKeyRound19();
    RoundsAfter(p, k, 19, 0x8AAA_7F8B_24E4_BE19, 0xC926_B82F_6083_5781, 0xC7F6_1E16_6227_E7D9);
    OnesUnderZeroKeyRound20();
    RoundsAfter(p, k, 20, 0xC7F6_1E16_6227_E7D9, 0x6A1C_D924_D705_EC19, 0x968D_DD3B_D330_F600);
    OnesUnderZeroKeyRound21();
    RoundsAfter(p, k, 21, 0x968D_DD3B_D330_F600, 0xBD5E_0D43_9B24_9AEA, 0x5699_AE25_B949_3BF3);
    OnesUnderZeroKeyRound22();
    RoundsAfter(p, k, 22, 0x5699_AE25_B949_3BF3, 0x07B0_77AB_C1A8_736E, 0x148A_7C93_3E47_4BFD);
    OnesUnderZeroKeyRound23();
    RoundsAfter(p, k, 23, 0x148A_7C93_3E47_4BFD, 0x426B_A0F6_0EF5_783E, 0x42ED_1C52_4A9D_388D);
    OnesUnderZeroKeyRound24();
    RoundsAfter(p, k, 24, 0x42ED_1C52_4A9D_388D, 0x41CD_A84D_741E_C1D5, 0xDC94_B204_61BD_46F1);
  }

  /** The state after rounds 25..31 on the all-one block under the all-zero key.
      `p` and `k` are pinned to the vector's values by `requires`, only so that the
      recursive definitions are never evaluated on literals. */
  lemma OnesUnderZeroKeyRounds4(p: State, k: bv80)
    requires p == 0xFFFF_FFFF_FFFF_FFFF && k == 0x0000_0000_0000_0000_0000
    ensures ReferenceRounds(p, k, 25) == 0x7672_E582_C784_37DF
    ensures ReferenceRounds(p, k, 26) == 0x2E5A_60CF_42F1_63F6
    ensures ReferenceRounds(p, k, 27) == 0x9AD5_92E4_C3F0_EA88
    ensures ReferenceRounds(p, k, 28) == 0x6344_AC54_5F8B_83C4
    ensures ReferenceRounds(p, k, 29) == 0xB0EC_DEF0_5569_FC10
    ensures ReferenceRounds(p, k, 30) == 0xF25C_7D1B_B6DF_0FD3
    ensures ReferenceRounds(p, k, 31) == 0xCCB9_CEB3_6029_967B
  {
    OnesUnderZeroKeyRounds3(p, k);
    ZeroKeySchedule3(k);
    ZeroKeySchedule4(k);
    OnesUnderZeroKeyRound25();
    RoundsAfter(p, k, 25, 0xDC94_B204_61BD_46F1, 0xF5E0_E839_B509_AE8F, 0x7672_E582_C784_37DF);
    OnesUnderZeroKeyRound26();
    RoundsAfter(p, k, 26, 0x7672_E582_C784_37DF, 0x2B07_5EBC_1D07_36AD, 0x2E5A_60CF_42F1_63F6);
    OnesUnderZeroKeyRound27();
    RoundsAfter(p, k, 27, 0x2E5A_60CF_42F1_63F6, 0x86BA_2560_EBD7_83AD, 0x9AD5_92E4_C3F0_EA88);
    OnesUnderZeroKeyRound28();
    RoundsAfter(p, k, 28, 0x9AD5_92E4_C3F0_EA88, 0x8CDA_B0D7_44AC_1D77, 0x6344_AC54_5F8B_83C4);
    OnesUnderZeroKeyRound29();
    RoundsAfter(p, k, 29, 0x6344_AC54_5F8B_83C4, 0x1E0E_B19B_561A_E89B, 0xB0EC_DEF0_5569_FC10);
    OnesUnderZeroKeyRound30();
    RoundsAfter(p, k, 30, 0xB0EC_DEF0_5569_FC10, 0xD075_C3C1_D633_6ACD, 0xF25C_7D1B_B6DF_0FD3);
    OnesUnderZeroKeyRound31();
    RoundsAfter(p, k, 31, 0xF25C_7D1B_B6DF_0FD3, 0x8BA2_7A0E_B878_3AC9, 0xCCB9_CEB3_6029_967B);
  }

  /** The all-one block encrypted under the all-zero 80-bit key register.
      `p` and `k` are pinned to the vector's values by `requires`, only so that the
      recursive definitions are never evaluated on literals. */
  lemma OnesUnderZeroKey(p: State, k: bv80)
    requires p == 0xFFFF_FFFF_FFFF_FFFF && k == 0x0000_0000_0000_0000_0000
    ensures ReferenceEncrypt(p, k) == 0xA112_FFC7_2F68_417B
  {
    OnesUnderZeroKeyRounds4(p, k);
    ZeroKeySchedule4(k);
  }

  /* Rounds 1..31 on the all-one block under the all-one key, one by one. */

  lemma OnesUnderOnesKeyRound1()
    ensures CipherRound(0xFFFF_FFFF_FFFF_FFFF, 0xFFFF_FFFF_FFFF_FFFF) == 0xFFFF_FFFF_0000_0000
  { CipherRoundIs(0xFFFF_FFFF_FFFF_FFFF, 0xFFFF_FFFF_FFFF_FFFF, 0xCCCC_CCCC_CCCC_CCCC, 0xFFFF_FFFF_0000_0000); }

  lemma OnesUnderOnesKeyRound2()
    ensures CipherRound(0xFFFF_FFFF_0000_0000, 0x2FFF_FFFF_FFFF_FFFF) == 0x7F00_FF00_80FF_8000
  { CipherRoundIs(0xFFFF_FFFF_0000_0000, 0x2FFF_FFFF_FFFF_FFFF, 0x7CCC_CCCC_2222_2222, 0x7F00_FF00_80FF_8000); }

  lemma OnesUnderOnesKeyRound3()
    ensures CipherRound(0x7F00_FF00_80FF_8000, 0x1FFF_E5FF_FFFF_FFFE) == 0xC4B8_4CB8_B746_0C89
  { CipherRoundIs(0x7F00_FF00_80FF_8000, 0x1FFF_E5FF_FFFF_FFFE, 0xAC22_5F22_D2CC_D221, 0xC4B8_4CB8_B746_0C89); }

  lemma OnesUnderOnesKeyRound4()
    ensures CipherRound(0xC4B8_4CB8_B746_0C89, 0x7FFF_E3FF_FCBF_FFFE) == 0xFBD7_1913_0C3C_3B87
  { CipherRoundIs(0xC4B8_4CB8_B746_0C89, 0x7FFF_E3FF_FCBF_FFFE, 0x889D_F29D_982E_2BDD, 0xFBD7_1913_0C3C_3B87); }

  lemma OnesUnderOnesKeyRound5()
    ensures CipherRound(0xFBD7_1913_0C3C_3B87, 0x4FFF_EFFF_FC7F_FF95) == 0xC474_214B_3C91_5236
  { CipherRoundIs(0xFBD7_1913_0C3C_3B87, 0x4FFF_EFFF_FC7F_FF95, 0x8963_2A14_2C9B_4956, 0xC474_214B_3C91_5236); }

  lemma OnesUnderOnesKeyRound6()
    ensures CipherRound(0xC474_214B_3C91_5236, 0x8FFF_E9FF_FDFF_FF8D) == 0xD32B_08CC_242C_A55C
  { CipherRoundIs(0xC474_214B_3C91_5236, 0x8FFF_E9FF_FDFF_FF8D, 0x9838_4389_45A1_F788, 0xD32B_08CC_242C_A55C); }

  lemma OnesUnderOnesKeyRound7()
    ensures CipherRound(0xD32B_08CC_242C_A55C, 0xFFFE_51FF_FD3F_FFBC) == 0x0755_E4E5_A7D4_23B6
  { CipherRoundIs(0xD32B_08CC_242C_A55C, 0xFFFE_51FF_FD3F_FFBC, 0x6470_0EBB_7E5B_0F1C, 0x0755_E4E5_A7D4_23B6); }

  lemma OnesUnderOnesKeyRound8()
    ensures CipherRound(0x0755_E4E5_A7D4_23B6, 0xEFFE_3FFF_CA3F_FFA4) == 0x3590_2B4F_69C9_EB6A
  { CipherRoundIs(0x0755_E4E5_A7D4_23B6, 0xEFFE_3FFF_CA3F_FFA4, 0x13F8_785F_A718_7456, 0x3590_2B4F_69C9_EB6A); }

  lemma OnesUnderOnesKeyRound9()
    ensures CipherRound(0x3590_2B4F_69C9_EB6A, 0x3FFE_FDFF_C7FF_F943) == 0xE7B1_C98F_6CB7_58E8
  { CipherRoundIs(0x3590_2B4F_69C9_EB6A, 0x3FFE_FDFF_C7FF_F943, 0xCFA1_7A8C_F1BA_566E, 0xE7B1_C98F_6CB7_58E8); }

  lemma OnesUnderOnesKeyRound10()
    ensures CipherRound(0xE7B1_C98F_6CB7_58E8, 0xDFFE_87FF_DFBF_F8FB) == 0xABED_032E_D059_EE5B
  { CipherRoundIs(0xE7B1_C98F_6CB7_58E8, 0xDFFE_87FF_DFBF_F8FB, 0xB392_91DC_8BC3_FC5B, 0xABED_032E_D059_EE5B); }

  lemma OnesUnderOnesKeyRound11()
    ensures CipherRound(0xABED_032E_D059_EE5B, 0xAFE5_1BFF_D0FF_FBF2) == 0xE0F3_ABEB_1633_5F2A
  { CipherRoundIs(0xABED_032E_D059_EE5B, 0xAFE5_1BFF_D0FF_FBF2, 0xC9C3_5375_CCFA_50FE, 0xE0F3_ABEB_1633_5F2A); }

  lemma OnesUnderOnesKeyRound12()
    ensures CipherRound(0xE0F3_ABEB_1633_5F2A, 0x0FE3_F5FC_A37F_FA1A) == 0x11AB_3319_400A_A72A
  { CipherRoundIs(0xE0F3_ABEB_1633_5F2A, 0x0FE3_F5FC_A37F_FA1A, 0x125C_015D_8094_F0BC, 0x11AB_3319_400A_A72A); }

  lemma OnesUnderOnesKeyRound13()
    ensures CipherRound(0x11AB_3319_400A_A72A, 0x9FEF_C1FC_7EBF_9469) == 0x30AF_0400_8C8D_F2CF
  { CipherRoundIs(0x11AB_3319_400A_A72A, 0x9FEF_C1FC_7EBF_9469, 0x3199_2610_B180_BB9B, 0x30AF_0400_8C8D_F2CF); }

  lemma OnesUnderOnesKeyRound14()
    ensures CipherRound(0x30AF_0400_8C8D_F2CF, 0xBFE8_73FD_F83F_8FD1) == 0x3CE8_1D9E_C314_BDCF
  { CipherRoundIs(0x30AF_0400_8C8D_F2CF, 0xBFE8_73FD_F83F_8FD1, 0x329D_DD27_D986_D751, 0x3CE8_1D9E_C314_BDCF); }

  lemma OnesUnderOnesKeyRound15()
    ensures CipherRound(0x3CE8_1D9E_C314_BDCF, 0x6E51_B7FD_0E7F_BF00) == 0x3F38_5CCE_5F65_0D40
  { CipherRoundIs(0x3CE8_1D9E_C314_BDCF, 0x6E51_B7FD_0E7F_BF00, 0x068E_FFAB_47A8_C642, 0x3F38_5CCE_5F65_0D40); }

  lemma OnesUnderOnesKeyRound16()
    ensures CipherRound(0x3F38_5CCE_5F65_0D40, 0x5E3F_4DCA_36FF_A1C8) == 0xB3F8_7E7C_80FB_5D1B
  { CipherRoundIs(0x3F38_5CCE_5F65_0D40, 0x5E3F_4DCA_36FF_A1C8, 0xA5CD_55C9_AEEF_F433, 0xB3F8_7E7C_80FB_5D1B); }

  lemma OnesUnderOnesKeyRound17()
    ensures CipherRound(0xB3F8_7E7C_80FB_5D1B, 0xCEFC_0BC7_E9B9_46D7) == 0xBBE4_E85B_40D0_D828
  { CipherRoundIs(0xB3F8_7E7C_80FB_5D1B, 0xCEFC_0BC7_E9B9_46D7, 0xD7C9_D088_AE96_5844, 0xBBE4_E85B_40D0_D828); }

  lemma OnesUnderOnesKeyRound18()
    ensures CipherRound(0xBBE4_E85B_40D0_D828, 0x2E87_39DF_8178_FD3F) == 0xB121_8CEB_BA38_1F73
  { CipherRoundIs(0xBBE4_E85B_40D0_D828, 0x2E87_39DF_8178_FD3F, 0xE0AB_7539_45F3_605D, 0xB121_8CEB_BA38_1F73); }

  lemma OnesUnderOnesKeyRound19()
    ensures CipherRound(0xB121_8CEB_BA38_1F73, 0x251B_45D0_E73B_F026) == 0xF730_9C60_B654_7258
  { CipherRoundIs(0xB121_8CEB_BA38_1F73, 0x251B_45D0_E73B_F026, 0xE9BF_4EB8_07CB_1200, 0xF730_9C60_B654_7258); }

  lemma OnesUnderOnesKeyRound20()
    ensures CipherRound(0xF730_9C60_B654_7258, 0x43F4_E4A3_68BA_1CEE) == 0xD90B_2A80_0589_5DF4
  { CipherRoundIs(0xF730_9C60_B654_7258, 0x43F4_E4A3_68BA_1CEE, 0x8949_D34B_7111_A18A, 0xD90B_2A80_0589_5DF4); }

  lemma OnesUnderOnesKeyRound21()
    ensures CipherRound(0xD90B_2A80_0589_5DF4, 0x7FC0_887E_9C94_6D1D) == 0xD8CD_ACF5_CED9_893A
  { CipherRoundIs(0xD90B_2A80_0589_5DF4, 0x7FC0_887E_9C94_6D1D, 0xFA48_F621_EE57_BC1E, 0xD8CD_ACF5_CED9_893A); }

  lemma OnesUnderOnesKeyRound22()
    ensures CipherRound(0xD8CD_ACF5_CED9_893A, 0xF873_AFF8_110F_D398) == 0x6E16_CBA7_85F7_15A6
  { CipherRoundIs(0xD8CD_ACF5_CED9_893A, 0xF873_AFF8_110F_D398, 0x6C81_CBC7_727A_0FF6, 0x6E16_CBA7_85F7_15A6); }

  lemma OnesUnderOnesKeyRound23()
    ensures CipherRound(0x6E16_CBA7_85F7_15A6, 0xC1B4_7F0E_75FF_022A) == 0xAF64_B36D_F392_A61E
  { CipherRoundIs(0x6E16_CBA7_85F7_15A6, 0xC1B4_7F0E_75FF_022A, 0xF2F6_89FE_2CC3_5D34, 0xAF64_B36D_F392_A61E); }

  lemma OnesUnderOnesKeyRound24()
    ensures CipherRound(0xAF64_B36D_F392_A61E, 0x0F4E_7836_8FE1_CEB4) == 0xD5BB_F8E3_B01F_90B7
  { CipherRoundIs(0xAF64_B36D_F392_A61E, 0x0F4E_7836_8FE1_CEB4, 0xFC6F_4808_D4DB_A3FF, 0xD5BB_F8E3_B01F_90B7); }

  lemma OnesUnderOnesKeyRound25()
    ensures CipherRound(0xD5BB_F8E3_B01F_90B7, 0x3C08_A1E9_CF06_D1F0) == 0x779B_47B5_5550_91AF
  { CipherRoundIs(0xD5BB_F8E3_B01F_90B7, 0x3C08_A1E9_CF06_D1F0, 0x1E8B_0ECF_D25E_959D, 0x779B_47B5_5550_91AF); }

  lemma OnesUnderOnesKeyRound26()
    ensures CipherRound(0x779B_47B5_5550_91AF, 0xC73A_C781_143D_39EC) == 0xE7AB_7458_2A3D_3BDF
  { CipherRoundIs(0x779B_47B5_5550_91AF, 0xC73A_C781_143D_39EC, 0x8CF5_3CB9_95A7_F39B, 0xE7AB_7458_2A3D_3BDF); }

  lemma OnesUnderOnesKeyRound27()
    ensures CipherRound(0xE7AB_7458_2A3D_3BDF, 0x3B47_D8E7_58F0_228A) == 0x0A84_DCFC_8954_A898
  { CipherRoundIs(0xE7AB_7458_2A3D_3BDF, 0x3B47_D8E7_58F0_228A, 0x7414_F482_D647_5E00, 0x0A84_DCFC_8954_A898); }

  lemma OnesUnderOnesKeyRound28()
    ensures CipherRound(0x0A84_DCFC_8954_A898, 0x04E7_A768_FB1C_EB13) == 0xBFAD_8AC0_3256_59BE
  { CipherRoundIs(0x0A84_DCFC_8954_A898, 0x04E7_A768_FB1C_EB13, 0xC1AB_D8E9_D693_9B38, 0xBFAD_8AC0_3256_59BE); }

  lemma OnesUnderOnesKeyRound29()
    ensures CipherRound(0xBFAD_8AC0_3256_59BE, 0xD08A_209C_F4ED_1F6D) == 0x9C7D_3D82_EC47_1C0B
  { CipherRoundIs(0xBFAD_8AC0_3256_59BE, 0xD08A_209C_F4ED_1F6D, 0xA26D_FF04_4A88_9A7B, 0x9C7D_3D82_EC47_1C0B); }

  lemma OnesUnderOnesKeyRound30()
    ensures CipherRound(0x9C7D_3D82_EC47_1C0B, 0x83AC_5A11_4413_9E93) == 0x0F92_B686_6BCF_B5D9
  { CipherRoundIs(0x9C7D_3D82_EC47_1C0B, 0x83AC_5A11_4413_9E93, 0x5275_ADEB_F309_36E3, 0x0F92_B686_6BCF_B5D9); }

  lemma OnesUnderOnesKeyRound31()
    ensures CipherRound(0x0F92_B686_6BCF_B5D9, 0xA47D_B075_8B42_288D) == 0xCD49_885C_973C_A1B5
  { CipherRoundIs(0x0F92_B686_6BCF_B5D9, 0xA47D_B075_8B42_288D, 0xF812_CA2B_1C37_E709, 0xCD49_885C_973C_A1B5); }

  /** The state after rounds 1..8 on the all-one block under the all-one key.
      `p` and `k` are pinned to the vector's values by `requires`, only so that the
      recursive definitions are never evaluated on literals. */
  lemma OnesUnderOnesKeyRounds1(p: State, k: bv80)
    requires p == 0xFFFF_FFFF_FFFF_FFFF && k == 0xFFFF_FFFF_FFFF_FFFF_FFFF
    ensures ReferenceRounds(p, k, 1) == 0xFFFF_FFFF_0000_0000
    ensures ReferenceRounds(p, k, 2) == 0x7F00_FF00_80FF_8000
    ensures ReferenceRounds(p, k, 3) == 0xC4B8_4CB8_B746_0C89
    ensures ReferenceRounds(p, k, 4) == 0xFBD7_1913_0C3C_3B87
    ensures ReferenceRounds(p, k, 5) == 0xC474_214B_3C91_5236
    ensures ReferenceRounds(p, k, 6) == 0xD32B_08CC_242C_A55C
    ensures ReferenceRounds(p, k, 7) == 0x0755_E4E5_A7D4_23B6
    ensures ReferenceRounds(p, k, 8) == 0x3590_2B4F_69C9_EB6A
  {
    OnesKeySchedule1(k);
    OnesUnderOnesKeyRound1();
    RoundsAfter(p, k, 1, 0xFFFF_FFFF_FFFF_FFFF, 0xFFFF_FFFF_FFFF_FFFF, 0xFFFF_FFFF_0000_0000);
    OnesUnderOnesKeyRound2();
    RoundsAfter(p, k, 2, 0xFFFF_FFFF_0000_0000, 0x2FFF_FFFF_FFFF_FFFF, 0x7F00_FF00_80FF_8000);
    OnesUnderOnesKeyRound3();
    RoundsAfter(p, k, 3, 0x7F00_FF00_80FF_8000, 0x1FFF_E5FF_FFFF_FFFE, 0xC4B8_4CB8_B746_0C89);
    OnesUnderOnesKeyRound4();
    RoundsAfter(p, k, 4, 0xC4B8_4CB8_B746_0C89, 0x7FFF_E3FF_FCBF_FFFE, 0xFBD7_1913_0C3C_3B87);
    OnesUnderOnesKeyRound5();
    RoundsAfter(p, k, 5, 0xFBD7_1913_0C3C_3B87, 0x4FFF_EFFF_FC7F_FF95, 0xC474_214B_3C91_5236);
    OnesUnderOnesKeyRound6();
    RoundsAfter(p, k, 6, 0xC474_214B_3C91_5236, 0x8FFF_E9FF_FDFF_FF8D, 0xD32B_08CC_242C_A55C);
    OnesUnderOnesKeyRound7();
    RoundsAfter(p, k, 7, 0xD32B_08CC_242C_A55C, 0xFFFE_51FF_FD3F_FFBC, 0x0755_E4E5_A7D4_23B6);
    OnesUnderOnesKeyRound8();
    RoundsAfter(p, k, 8, 0x0755_E4E5_A7D4_23B6, 0xEFFE_3FFF_CA3F_FFA4, 0x3590_2B4F_69C9_EB6A);
  }

  /** The state after rounds 9..16 on the all-one block under the all-one key.
      `p` and `k` are pinned to the vector's values by `requires`, only so that the
      recursive definitions are never evaluated on literals. */
  lemma OnesUnderOnesKeyRounds2(p: State, k: bv80)
    requires p == 0xFFFF_FFFF_FFFF_FFFF && k == 0xFFFF_FFFF_FFFF_FFFF_FFFF
    ensures ReferenceRounds(p, k, 9) == 0xE7B1_C98F_6CB7_58E8
    ensures ReferenceRounds(p, k, 10) == 0xABED_032E_D059_EE5B
    ensures ReferenceRounds(p, k, 11) == 0xE0F3_ABEB_1633_5F2A
    ensures ReferenceRounds(p, k, 12) == 0x11AB_3319_400A_A72A
    ensures ReferenceRounds(p, k, 13) == 0x30AF_0400_8C8D_F2CF
    ensures ReferenceRounds(p, k, 14) == 0x3CE8_1D9E_C314_BDCF
    ensures ReferenceRounds(p, k, 15) == 0x3F38_5CCE_5F65_0D40
    ensures ReferenceRounds(p, k, 16) == 0xB3F8_7E7C_80FB_5D1B
  {
    OnesUnderOnesKeyRounds1(p, k);
    OnesKeySchedule1(k);
    OnesKeySchedule2(k);
    OnesUnderOnesKeyRound9();
    RoundsAfter(p, k, 9, 0x3590_2B4F_69C9_EB6A, 0x3FFE_FDFF_C7FF_F943, 0xE7B1_C98F_6CB7_58E8);
    OnesUnderOnesKeyRound10();
    RoundsAfter(p, k, 10, 0xE7B1_C98F_6CB7_58E8, 0xDFFE_87FF_DFBF_F8FB, 0xABED_032E_D059_EE5B);
    OnesUnderOnesKeyRound11();
    RoundsAfter(p, k, 11, 0xABED_032E_D059_EE5B, 0xAFE5_1BFF_D0FF_FBF2, 0xE0F3_ABEB_1633_5F2A);
    OnesUnderOnesKeyRound12();
    RoundsAfter(p, k, 12, 0xE0F3_ABEB_1633_5F2A, 0x0FE3_F5FC_A37F_FA1A, 0x11AB_3319_400A_A72A);
    OnesUnderOnesKeyRound13();
    RoundsAfter(p, k, 13, 0x11AB_3319_400A_A72A, 0x9FEF_C1FC_7EBF_9469, 0x30AF_0400_8C8D_F2CF);
    OnesUnderOnesKeyRound14();
    RoundsAfter(p, k, 14, 0x30AF_0400_8C8D_F2CF, 0xBFE8_73FD_F83F_8FD1, 0x3CE8_1D9E_C314_BDCF);
    OnesUnderOnesKeyRound15();
    RoundsAfter(p, k, 15, 0x3CE8_1D9E_C314_BDCF, 0x6E51_B7FD_0E7F_BF00, 0x3F38_5CCE_5F65_0D40);
    OnesUnderOnesKeyRound16();
    RoundsAfter(p, k, 16, 0x3F38_5CCE_5F65_0D40, 0x5E3F_4DCA_36FF_A1C8, 0xB3F8_7E7C_80FB_5D1B);
  }

  /** The state after rounds 17..24 on the all-one block under the all-one key.
      `p` and `k` are pinned to the vector's values by `requires`, only so that the
      recursive definitions are never evaluated on literals. */
  lemma OnesUnderOnesKeyRounds3(p: State, k: bv80)
    requires p == 0xFFFF_FFFF_FFFF_FFFF && k == 0xFFFF_FFFF_FFFF_FFFF_FFFF
    ensures ReferenceRounds(p, k, 17) == 0xBBE4_E85B_40D0_D828
    ensures ReferenceRounds(p, k, 18) == 0xB121_8CEB_BA38_1F73
    ensures ReferenceRounds(p, k, 19) == 0xF730_9C60_B654_7258
    ensures ReferenceRounds(p, k, 20) == 0xD90B_2A80_0589_5DF4
    ensures ReferenceRounds(p, k, 21) == 0xD8CD_ACF5_CED9_893A
    ensures ReferenceRounds(p, k, 22) == 0x6E16_CBA7_85F7_15A6
    ensures ReferenceRounds(p, k, 23) == 0xAF64_B36D_F392_A61E
    ensures ReferenceRounds(p, k, 24) == 0xD5BB_F8E3_B01F_90B7
  {
    OnesUnderOnesKeyRounds2(p, k);
    OnesKeySchedule2(k);
    OnesKeySchedule3(k);
    OnesUnderOnesKeyRound17();
    RoundsAfter(p, k, 17, 0xB3F8_7E7C_80FB_5D1B, 0xCEFC_0BC7_E9B9_46D7, 0xBBE4_E85B_40D0_D828);
    OnesUnderOnesKeyRound18();
    RoundsAfter(p, k, 18, 0xBBE4_E85B_40D0_D828, 0x2E87_39DF_8178_FD3F, 0xB121_8CEB_BA38_1F73);
    OnesUnderOnesKeyRound19();
    RoundsAfter(p, k, 19, 0xB121_8CEB_BA38_1F73, 0x251B_45D0_E73B_F026, 0xF730_9C60_B654_7258);
    OnesUnderOnesKeyRound20();
    RoundsAfter(p, k, 20, 0xF730_9C60_B654_7258, 0x43F4_E4A3_68BA_1CEE, 0xD90B_2A80_0589_5DF4);
    OnesUnderOnesKeyRound21();
    RoundsAfter(p, k, 21, 0xD90B_2A80_0589_5DF4, 0x7FC0_887E_9C94_6D1D, 0xD8CD_ACF5_CED9_893A);
    OnesUnderOnesKeyRound22();
    RoundsAfter(p, k, 22, 0xD8CD_ACF5_CED9_893A, 0xF873_AFF8_110F_D398, 0x6E16_CBA7_85F7_15A6);
    OnesUnderOnesKeyRound23();
    RoundsAfter(p, k, 23, 0x6E16_CBA7_85F7_15A6, 0xC1B4_7F0E_75FF_022A, 0xAF64_B36D_F392_A61E);
    OnesUnderOnesKeyRound24();
    RoundsAfter(p, k, 24, 0xAF64_B36D_F392_A61E, 0x0F4E_7836_8FE1_CEB4, 0xD5BB_F8E3_B01F_90B7);
  }

  /** The state after rounds 25..31 on the all-one block under the all-one key.
      `p` and `k` are pinned to the vector's values by `requires`, only so that the
      recursive definitions are never evaluated on literals. */
  lemma OnesUnderOnesKeyRounds4(p: State, k: bv80)
    requires p == 0xFFFF_FFFF_FFFF_FFFF && k == 0xFFFF_FFFF_FFFF_FFFF_FFFF
    ensures ReferenceRounds(p, k, 25) == 0x779B_47B5_5550_91AF
    ensures ReferenceRounds(p, k, 26) == 0xE7AB_7458_2A3D_3BDF
    ensures ReferenceRounds(p, k, 27) == 0x0A84_DCFC_8954_A898
    ensures ReferenceRounds(p, k, 28) == 0xBFAD_8AC0_3256_59BE
    ensures ReferenceRounds(p, k, 29) == 0x9C7D_3D82_EC47_1C0B
    ensures ReferenceRounds(p, k, 30) == 0x0F92_B686_6BCF_B5D9
    ensures ReferenceRounds(p, k, 31) == 0xCD49_885C_973C_A1B5
  {
    OnesUnderOnesKeyRounds3(p, k);
    OnesKeySchedule3(k);
    OnesKeySchedule4(k);
    OnesUnderOnesKeyRound25();
    RoundsAfter(p, k, 25, 0xD5BB_F8E3_B01F_90B7, 0x3C08_A1E9_CF06_D1F0, 0x779B_47B5_5550_91AF);
    OnesUnderOnesKeyRound26();
    RoundsAfter(p, k, 26, 0x779B_47B5_5550_91AF, 0xC73A_C781_143D_39EC, 0xE7AB_7458_2A3D_3BDF);
    OnesUnderOnesKeyRound27();
    RoundsAfter(p, k, 27, 0xE7AB_7458_2A3D_3BDF, 0x3B47_D8E7_58F0_228A, 0x0A84_DCFC_8954_A898);
    OnesUnderOnesKeyRound28();
    RoundsAfter(p, k, 28, 0x0A84_DCFC_8954_A898, 0x04E7_A768_FB1C_EB13, 0xBFAD_8AC0_3256_59BE);
    OnesUnderOnesKeyRound29();
    RoundsAfter(p, k, 29, 0xBFAD_8AC0_3256_59BE, 0xD08A_209C_F4ED_1F6D, 0x9C7D_3D82_EC47_1C0B);
    OnesUnderOnesKeyRound30();
    RoundsAfter(p, k, 30, 0x9C7D_3D82_EC47_1C0B, 0x83AC_5A11_4413_9E93, 0x0F92_B686_6BCF_B5D9);
    OnesUnderOnesKeyRound31();
    RoundsAfter(p, k, 31, 0x0F92_B686_6BCF_B5D9, 0xA47D_B075_8B42_288D, 0xCD49_885C_973C_A1B5);
  }

  /** The all-one block encrypted under the all-one 80-bit key register.
      `p` and `k` are pinned to the vector's values by `requires`, only so that the
      recursive definitions are never evaluated on literals. */
  lemma OnesUnderOnesKey(p: State, k: bv80)
    requires p == 0xFFFF_FFFF_FFFF_FFFF && k == 0xFFFF_FFFF_FFFF_FFFF_FFFF
    ensures ReferenceEncrypt(p, k) == 0x3333_DCD3_2132_10D2
  {
    OnesUnderOnesKeyRounds4(p, k);
    OnesKeySchedule4(k);
  }

  /* ---------------------------------------------------------------------- */
  /* The vectors through the block and ECB interfaces                        */
  /* ---------------------------------------------------------------------- */

  /** The all-zero key bytes load the all-zero register.
      `keyBytes` is pinned to the vector's values by `requires`, only so that the
      recursive definitions are never evaluated on literals. */
  lemma ZeroKeyView(keyBytes: seq<Byte>)
    requires keyBytes == [0x00, 0x00, 0x00, 0x00, 0x00, 0x00, 0x00, 0x00, 0x00, 0x00]
    ensures FromKey(NewKey(keyBytes)).View() == 0x0000_0000_0000_0000_0000
  {
    assert NewKey(keyBytes).bytes == keyBytes;
    FromKeyIs(NewKey(keyBytes));
  }

  /** The all-one key bytes load the all-one register.
      `keyBytes` is pinned to the vector's values by `requires`, only so that the
      recursive definitions are never evaluated on literals. */
  lemma OnesKeyView(keyBytes: seq<Byte>)
    requires keyBytes == [0xFF, 0xFF, 0xFF, 0xFF, 0xFF, 0xFF, 0xFF, 0xFF, 0xFF, 0xFF]
    ensures FromKey(NewKey(keyBytes)).View() == 0xFFFF_FFFF_FFFF_FFFF_FFFF
  {
    assert NewKey(keyBytes).bytes == keyBytes;
    FromKeyIs(NewKey(keyBytes));
  }

  /** encrypt_block on an eight-byte block is the reference cipher under the
      loaded register, written back big-endian. */
  lemma EncryptBlockIs(plaintext: seq<Byte>, key: Key, c: State)
    requires |plaintext| == BLOCK_SIZE_IN_BYTES
    requires ReferenceEncrypt(BytesToState(plaintext), FromKey(key).View()) == c
    ensures EncryptBlock(plaintext, key) == UnpackBigEndian(c)
  {
    assert (plaintext + Zeros(8))[..8] == plaintext;
    var r := EncryptBlock(plaintext, key);
    BytesToStateRoundTrip(r);
    StateToBytesLoopUnrolled(c);
  }

  /** test_encrypt_block1: the all-zero block under the all-zero key.
      `plaintext` and `keyBytes` are pinned to the vector's values by `requires`, only so that the
      recursive definitions are never evaluated on literals. */
  lemma EncryptBlockZerosUnderZeroKey(plaintext: seq<Byte>, keyBytes: seq<Byte>)
    requires plaintext == [0x00, 0x00, 0x00, 0x00, 0x00, 0x00, 0x00, 0x00] && keyBytes == [0x00, 0x00, 0x00, 0x00, 0x00, 0x00, 0x00, 0x00, 0x00, 0x00]
    ensures EncryptBlock(plaintext, NewKey(keyBytes)) == [0x55, 0x79, 0xC1, 0x38, 0x7B, 0x22, 0x84, 0x45]
  {
    ZeroKeyView(keyBytes);
    BytesToStateLoopUnrolled(plaintext);
    ZerosUnderZeroKey(BytesToState(plaintext), FromKey(NewKey(keyBytes)).View());
    EncryptBlockIs(plaintext, NewKey(keyBytes), 0x5579_C138_7B22_8445);
  }

  /** test_encrypt_block2: the all-zero block under the all-one key.
      `plaintext` and `keyBytes` are pinned to the vector's values by `requires`, only so that the
      recursive definitions are never evaluated on literals. */
  lemma EncryptBlockZerosUnderOnesKey(plaintext: seq<Byte>, keyBytes: seq<Byte>)
    requires plaintext == [0x00, 0x00, 0x00, 0x00, 0x00, 0x00, 0x00, 0x00] && keyBytes == [0xFF, 0xFF, 0xFF, 0xFF, 0xFF, 0xFF, 0xFF, 0xFF, 0xFF, 0xFF]
    ensures EncryptBlock(plaintext, NewKey(keyBytes)) == [0xE7, 0x2C, 0x46, 0xC0, 0xF5, 0x94, 0x50, 0x49]
  {
    OnesKeyView(keyBytes);
    BytesToStateLoopUnrolled(plaintext);
    ZerosUnderOnesKey(BytesToState(plaintext), FromKey(NewKey(keyBytes)).View());
    EncryptBlockIs(plaintext, NewKey(keyBytes), 0xE72C_46C0_F594_5049);
  }

  /** The all-one block under the all-zero key.
      `plaintext` and `keyBytes` are pinned to the vector's values by `requires`, only so that the
      recursive definitions are never evaluated on literals. */
  lemma EncryptBlockOnesUnderZeroKey(plaintext: seq<Byte>, keyBytes: seq<Byte>)
    requires plaintext == [0xFF, 0xFF, 0xFF, 0xFF, 0xFF, 0xFF, 0xFF, 0xFF] && keyBytes == [0x00, 0x00, 0x00, 0x00, 0x00, 0x00, 0x00, 0x00, 0x00, 0x00]
    ensures EncryptBlock(plaintext, NewKey(keyBytes)) == [0xA1, 0x12, 0xFF, 0xC7, 0x2F, 0x68, 0x41, 0x7B]
  {
    ZeroKeyView(keyBytes);
    BytesToStateLoopUnrolled(plaintext);
    OnesUnderZeroKey(BytesToState(plaintext), FromKey(NewKey(keyBytes)).View());
    EncryptBlockIs(plaintext, NewKey(keyBytes), 0xA112_FFC7_2F68_417B);
  }

  /** test_encrypt_block4: the all-one block under the all-one key.
      `plaintext` and `keyBytes` are pinned to the vector's values by `requires`, only so that the
      recursive definitions are never evaluated on literals. */
  lemma EncryptBlockOnesUnderOnesKey(plaintext: seq<Byte>, keyBytes: seq<Byte>)
    requires plaintext == [0xFF, 0xFF, 0xFF, 0xFF, 0xFF, 0xFF, 0xFF, 0xFF] && keyBytes == [0xFF, 0xFF, 0xFF, 0xFF, 0xFF, 0xFF, 0xFF, 0xFF, 0xFF, 0xFF]
    ensures EncryptBlock(plaintext, NewKey(keyBytes)) == [0x33, 0x33, 0xDC, 0xD3, 0x21, 0x32, 0x10, 0xD2]
  {
    OnesKeyView(keyBytes);
    BytesToStateLoopUnrolled(plaintext);
    OnesUnderOnesKey(BytesToState(plaintext), FromKey(NewKey(keyBytes)).View());
    EncryptBlockIs(plaintext, NewKey(keyBytes), 0x3333_DCD3_2132_10D2);
  }

  /** test_encrypt_block3: ecb_encrypt of the all-one block under the
      all-zero key.
      `plaintext` and `keyBytes` are pinned to the vector's values by `requires`, only so that the
      recursive definitions are never evaluated on literals. */
  lemma EcbEncryptOnesUnderZeroKey(plaintext: seq<Byte>, keyBytes: seq<Byte>)
    requires plaintext == [0xFF, 0xFF, 0xFF, 0xFF, 0xFF, 0xFF, 0xFF, 0xFF] && keyBytes == [0x00, 0x00, 0x00, 0x00, 0x00, 0x00, 0x00, 0x00, 0x00, 0x00]
    ensures EcbEncrypt(plaintext, NewKey(keyBytes)) == [0xA1, 0x12, 0xFF, 0xC7, 0x2F, 0x68, 0x41, 0x7B]
  {
    EcbEncryptAgreesWithEncryptBlock(plaintext, NewKey(keyBytes));
    EncryptBlockOnesUnderZeroKey(plaintext, keyBytes);
  }

  /** test_ecb_encrypt1: the all-zero block then the all-one block, under the
      all-zero key.
      `plaintext` and `keyBytes` are pinned to the vector's values by `requires`, only so that the
      recursive definitions are never evaluated on literals. */
  lemma EcbEncryptTwoBlocksUnderZeroKey(plaintext: seq<Byte>, keyBytes: seq<Byte>)
    requires plaintext == [0x00, 0x00, 0x00, 0x00, 0x00, 0x00, 0x00, 0x00] + [0xFF, 0xFF, 0xFF, 0xFF, 0xFF, 0xFF, 0xFF, 0xFF] && keyBytes == [0x00, 0x00, 0x00, 0x00, 0x00, 0x00, 0x00, 0x00, 0x00, 0x00]
    ensures EcbEncrypt(plaintext, NewKey(keyBytes)) == [0x55, 0x79, 0xC1, 0x38, 0x7B, 0x22, 0x84, 0x45] + [0xA1, 0x12, 0xFF, 0xC7, 0x2F, 0x68, 0x41, 0x7B]
  {
    var key := NewKey(keyBytes);
    var u: seq<Byte>, v: seq<Byte> := [0x00, 0x00, 0x00, 0x00, 0x00, 0x00, 0x00, 0x00], [0xFF, 0xFF, 0xFF, 0xFF, 0xFF, 0xFF, 0xFF, 0xFF];
    EcbEncryptTwoBlocks(u, v, key);
    EncryptBlockZerosUnderZeroKey(u, keyBytes);
    EncryptBlockOnesUnderZeroKey(v, keyBytes);
  }

  /** test_ecb_encrypt2: the all-zero block then the all-one block, under the
      all-one key.
      `plaintext` and `keyBytes` are pinned to the vector's values by `requires`, only so that the
      recursive definitions are never evaluated on literals. */
  lemma EcbEncryptTwoBlocksUnderOnesKey(plaintext: seq<Byte>, keyBytes: seq<Byte>)
    requires plaintext == [0x00, 0x00, 0x00, 0x00, 0x00, 0x00, 0x00, 0x00] + [0xFF, 0xFF, 0xFF, 0xFF, 0xFF, 0xFF, 0xFF, 0xFF] && keyBytes == [0xFF, 0xFF, 0xFF, 0xFF, 0xFF, 0xFF, 0xFF, 0xFF, 0xFF, 0xFF]
    ensures EcbEncrypt(plaintext, NewKey(keyBytes)) == [0xE7, 0x2C, 0x46, 0xC0, 0xF5, 0x94, 0x50, 0x49] + [0x33, 0x33, 0xDC, 0xD3, 0x21, 0x32, 0x10, 0xD2]
  {
    var key := NewKey(keyBytes);
    var u: seq<Byte>, v: seq<Byte> := [0x00, 0x00, 0x00, 0x00, 0x00, 0x00, 0x00, 0x00], [0xFF, 0xFF, 0xFF, 0xFF, 0xFF, 0xFF, 0xFF, 0xFF];
    EcbEncryptTwoBlocks(u, v, key);
    EncryptBlockZerosUnderOnesKey(u, keyBytes);
    EncryptBlockOnesUnderOnesKey(v, keyBytes);
  }
}
