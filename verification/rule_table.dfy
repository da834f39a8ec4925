/**
 * The decode rules of the test bench: one mask/match template per XCrypto
 * instruction, in the order the bench checks them, each naming the subclass
 * bit the decoder must raise for a matching encoding.
 */
module RuleTable {
  import opened CopCommon
  import opened DecodeCheck

  const RULE_COUNT := 71

  /** Rule i of the table, in the order the bench checks them. */
  function RuleAt(i: nat): Rule
    requires i < RULE_COUNT
  {
    if i < 18 then RuleBlock0(i)
    else if i < 36 then RuleBlock1(i - 18)
    else if i < 54 then RuleBlock2(i - 36)
    else RuleBlock3(i - 54)
  }

  /** Rules 0 to 17, counted from 0. */
  function RuleBlock0(j: nat): Rule
    requires j < 18
  {
    match j
    case 0 => Rule(0xfff8707f, 0x1000002b, Move, SCLASS_XCR2GPR, "xc.xcr2gpr")
    case 1 => Rule(0xfff0787f, 0x1100002b, Move, SCLASS_GPR2XCR, "xc.gpr2xcr")
    case 2 => Rule(0xfff87fff, 0x800002b, Random, SCLASS_RSEED, "xc.rngseed")
    case 3 => Rule(0xfffff87f, 0x810082b, Random, SCLASS_RSAMP, "xc.dec_rngsamp")
    case 4 => Rule(0xfffff07f, 0x820002b, Random, SCLASS_RTEST, "xc.rngtest")
    case 5 => Rule(0xff08787f, 0x1800082b, Move, SCLASS_CMOV_T, "xc.cmov_t")
    case 6 => Rule(0xff08787f, 0x1800002b, Move, SCLASS_CMOV_F, "xc.cmov_f")
    case 7 => Rule(0x1f08787f, 0x600002b, Palu, SCLASS_PADD, "xc.padd")
    case 8 => Rule(0x1f08787f, 0x600082b, Palu, SCLASS_PSUB, "xc.psub")
    case 9 => Rule(0x1f08787f, 0xe00002b, Palu, SCLASS_PMUL_L, "xc.pmul_l")
    case 10 => Rule(0x1f08787f, 0xe00082b, Palu, SCLASS_PMUL_H, "xc.pmul_h")
    case 11 => Rule(0x1f08787f, 0xe08002b, Palu, SCLASS_PCLMUL_L, "xc.pclmul_l")
    case 12 => Rule(0x1f08787f, 0xe08082b, Palu, SCLASS_PCLMUL_H, "xc.pclmul_h")
    case 13 => Rule(0x1f08787f, 0x1600002b, Palu, SCLASS_PSLL, "xc.psll")
    case 14 => Rule(0x1f08787f, 0x1600082b, Palu, SCLASS_PSRL, "xc.psrl")
    case 15 => Rule(0x1f08787f, 0x1608082b, Palu, SCLASS_PROT, "xc.prot")
    case 16 => Rule(0x1e08787f, 0x1e00002b, Palu, SCLASS_PSLL_I, "xc.psll_i")
    case _ => Rule(0x1e08787f, 0x1e00082b, Palu, SCLASS_PSRL_I, "xc.psrl_i")
  }

  /** Rules 18 to 35, counted from 18. */
  function RuleBlock1(j: nat): Rule
    requires j < 18
  {
    match j
    case 0 => Rule(0x1e08787f, 0x1e08082b, Palu, SCLASS_PROT_I, "xc.prot_i")
    case 1 => Rule(0x3e00707f, 0xc00002b, Sha3, SCLASS_SHA3_XY, "xc.sha3_xy")
    case 2 => Rule(0x3e00707f, 0x1400002b, Sha3, SCLASS_SHA3_X1, "xc.sha3_x1")
    case 3 => Rule(0x3e00707f, 0x2400002b, Sha3, SCLASS_SHA3_X2, "xc.sha3_x2")
    case 4 => Rule(0x3e00707f, 0x1c00002b, Sha3, SCLASS_SHA3_X4, "xc.sha3_x4")
    case 5 => Rule(0x3e00707f, 0x3400002b, Sha3, SCLASS_SHA3_YX, "xc.sha3_yx")
    case 6 => Rule(0xff08787f, 0x400002b, Aes, SCLASS_AESSUB_ENC, "xc.aessub_enc")
    case 7 => Rule(0xff08787f, 0x400082b, Aes, SCLASS_AESSUB_ENCROT, "xc.aessub_encrot")
    case 8 => Rule(0xff08787f, 0x408002b, Aes, SCLASS_AESSUB_DEC, "xc.aessub_dec")
    case 9 => Rule(0xff08787f, 0x408082b, Aes, SCLASS_AESSUB_DECROT, "xc.aessub_decrot")
    case 10 => Rule(0xff08787f, 0x500002b, Aes, SCLASS_AESMIX_ENC, "xc.aesmix_enc")
    case 11 => Rule(0xff08787f, 0x508002b, Aes, SCLASS_AESMIX_DEC, "xc.aesmix_dec")
    case 12 => Rule(0x3e00787f, 0x200002b, LoadStore, SCLASS_LDR_B, "xc.ldr_bu")
    case 13 => Rule(0x3e00787f, 0x1200002b, LoadStore, SCLASS_LDR_H, "xc.ldr_hu")
    case 14 => Rule(0xfe00787f, 0x2200002b, LoadStore, SCLASS_LDR_W, "xc.ldr_w")
    case 15 => Rule(0x3e00787f, 0x200082b, LoadStore, SCLASS_STR_B, "xc.str_b")
    case 16 => Rule(0x3e00787f, 0x1200082b, LoadStore, SCLASS_STR_H, "xc.str_h")
    case _ => Rule(0xfe00787f, 0x2200082b, LoadStore, SCLASS_STR_W, "xc.str_w")
  }

  /** Rules 36 to 53, counted from 36. */
  function RuleBlock2(j: nat): Rule
    requires j < 18
  {
    match j
    case 0 => Rule(0xff00787f, 0xa00082b, LoadStore, SCLASS_SCATTER_B, "xc.scatter_b")
    case 1 => Rule(0xff00787f, 0xa00002b, LoadStore, SCLASS_GATHER_B, "xc.gather_b")
    case 2 => Rule(0xff00787f, 0xb00082b, LoadStore, SCLASS_SCATTER_H, "xc.scatter_h")
    case 3 => Rule(0xff00787f, 0xb00002b, LoadStore, SCLASS_GATHER_H, "xc.gather_h")
    case 4 => Rule(0x8787f, 0x682b, Bitwise, SCLASS_BOP, "xc.bop")
    case 5 => Rule(0xf000707f, 0x702b, Mp, SCLASS_MEQU, "xc.mequ")
    case 6 => Rule(0xf000707f, 0x1000702b, Mp, SCLASS_MLTE, "xc.mlte")
    case 7 => Rule(0xf000707f, 0x2000702b, Mp, SCLASS_MGTE, "xc.mgte")
    case 8 => Rule(0xf008787f, 0x3008702b, Bitwise, SCLASS_LUT, "xc.lut")
    case 9 => Rule(0xf0087c7f, 0x4000702b, Mp, SCLASS_MADD_3, "xc.madd_3")
    case 10 => Rule(0xf0087c7f, 0x6000702b, Mp, SCLASS_MSUB_3, "xc.msub_3")
    case 11 => Rule(0xff087c7f, 0x5000702b, Mp, SCLASS_MADD_2, "xc.madd_2")
    case 12 => Rule(0xff087c7f, 0x5100702b, Mp, SCLASS_MSUB_2, "xc.msub_2")
    case 13 => Rule(0xff087c7f, 0x5200702b, Mp, SCLASS_MACC_2, "xc.macc_2")
    case 14 => Rule(0xfff87c7f, 0x5f00702b, Mp, SCLASS_MACC_1, "xc.macc_1")
    case 15 => Rule(0xf0087c7f, 0x7000782b, Mp, SCLASS_MSLL, "xc.msll")
    case 16 => Rule(0xf0087c7f, 0x8000782b, Mp, SCLASS_MSRL, "xc.msrl")
    case _ => Rule(0xf0087c7f, 0x9000782b, Mp, SCLASS_MMUL_3, "xc.mmul_3")
  }

  /** Rules 54 to 70, counted from 54. */
  function RuleBlock3(j: nat): Rule
    requires j < 17
  {
    match j
    case 0 => Rule(0xf0087c7f, 0xa000782b, Mp, SCLASS_MCLMUL_3, "xc.mclmul_3")
    case 1 => Rule(0xc0087c7f, 0xc000742b, Mp, SCLASS_MSLL_I, "xc.msll_i")
    case 2 => Rule(0xc0087c7f, 0x8000742b, Mp, SCLASS_MSRL_I, "xc.msrl_i")
    case 3 => Rule(0x707f, 0x102b, LoadStore, SCLASS_LB_CR, "xc.ld_bu")
    case 4 => Rule(0x10707f, 0x202b, LoadStore, SCLASS_LH_CR, "xc.ld_hu")
    case 5 => Rule(0x10787f, 0x302b, LoadStore, SCLASS_LD_W, "xc.ld_w")
    case 6 => Rule(0x10787f, 0x10302b, Bitwise, SCLASS_LD_HIU, "xc.ld_hiu")
    case 7 => Rule(0x10787f, 0x10382b, Bitwise, SCLASS_LD_LIU, "xc.ld_liu =")
    case 8 => Rule(0x7f8787f, 0x10202b, Permute, SCLASS_PERM_IBIT, "xc.ipbit")
    case 9 => Rule(0x7f8787f, 0x10282b, Permute, SCLASS_PERM_BIT, "xc.pbit")
    case 10 => Rule(0xf8787f, 0x30202b, Permute, SCLASS_PERM_BYTE, "xc.pbyte")
    case 11 => Rule(0x38787f, 0x30282b, Bitwise, SCLASS_INS, "xc.ins")
    case 12 => Rule(0x38787f, 0x38202b, Bitwise, SCLASS_BMV, "xc.bmv")
    case 13 => Rule(0x38787f, 0x38282b, Bitwise, SCLASS_EXT, "xc.ext")
    case 14 => Rule(0x707f, 0x402b, LoadStore, SCLASS_ST_B, "xc.st_b")
    case 15 => Rule(0x100707f, 0x502b, LoadStore, SCLASS_ST_H, "xc.st_h")
    case _ => Rule(0x100787f, 0x602b, LoadStore, SCLASS_ST_W, "xc.st_w")
  }

  /** The whole table. */
  const RULES: seq<Rule> := RuleList()

  function RuleList(): (rs: seq<Rule>)
    ensures |rs| == RULE_COUNT
    ensures forall i :: 0 <= i < RULE_COUNT ==> rs[i] == RuleAt(i)
  {
    seq(RULE_COUNT, i requires 0 <= i < RULE_COUNT => RuleAt(i))
  }

  /**
   * The per-rule facts the table satisfies: the rule sits in the custom-1
   * opcode slot, its pattern lies within its mask, it does not fire on the
   * xc.init encoding, and its subclass bit is below 16.
   */
  predicate WellFormedRule(r: Rule)
  {
    && OpcodeSlotted(r)
    && PatternWithinMask(r)
    && !Fires(r, INIT_ENCODING)
    && r.bit < 16
  }

  lemma RuleWellFormed(i: nat)
    requires i < RULE_COUNT
    ensures WellFormedRule(RuleAt(i))
  {
    if i < 18 {
      RulesWellFormed0(i);
    } else if i < 36 {
      RulesWellFormed1(i);
    } else if i < 54 {
      RulesWellFormed2(i);
    } else {
      RulesWellFormed3(i);
    }
  }

  lemma RulesWellFormed0(i: nat)
    requires 0 <= i < 18
    ensures WellFormedRule(RuleAt(i))
  {
    assert i == 0 || i == 1 || i == 2 || i == 3 || i == 4 || i == 5 || i == 6 || i == 7 || i == 8
        || i == 9 || i == 10 || i == 11 || i == 12 || i == 13 || i == 14 || i == 15 || i == 16 || i == 17;
  }

  lemma RulesWellFormed1(i: nat)
    requires 18 <= i < 36
    ensures WellFormedRule(RuleAt(i))
  {
    assert i == 18 || i == 19 || i == 20 || i == 21 || i == 22 || i == 23 || i == 24 || i == 25 || i == 26
        || i == 27 || i == 28 || i == 29 || i == 30 || i == 31 || i == 32 || i == 33 || i == 34 || i == 35;
  }

  lemma RulesWellFormed2(i: nat)
    requires 36 <= i < 54
    ensures WellFormedRule(RuleAt(i))
  {
    assert i == 36 || i == 37 || i == 38 || i == 39 || i == 40 || i == 41 || i == 42 || i == 43 || i == 44
        || i == 45 || i == 46 || i == 47 || i == 48 || i == 49 || i == 50 || i == 51 || i == 52 || i == 53;
  }

  lemma RulesWellFormed3(i: nat)
    requires 54 <= i < 71
    ensures WellFormedRule(RuleAt(i))
  {
    assert i == 54 || i == 55 || i == 56 || i == 57 || i == 58 || i == 59 || i == 60 || i == 61 || i == 62
        || i == 63 || i == 64 || i == 65 || i == 66 || i == 67 || i == 68 || i == 69 || i == 70;
  }

  /** Every rule of the table is well formed. */
  lemma RulesWellFormed()
    ensures |RULES| == RULE_COUNT
    ensures forall i :: 0 <= i < |RULES| ==> WellFormedRule(RULES[i])
  {
    forall i | 0 <= i < RULE_COUNT ensures WellFormedRule(RuleAt(i)) {
      RuleWellFormed(i);
    }
  }

  /** Every rule sits in the custom-1 opcode slot: bits [6:0] of its mask are all set and its pattern holds 0x2B there. */
  lemma RulesOpcodeSlotted()
    ensures |RULES| == RULE_COUNT
    ensures forall i :: 0 <= i < |RULES| ==> OpcodeSlotted(RULES[i])
  {
    RulesWellFormed();
  }

  /** Every pattern lies within its mask, so every rule fires on its own pattern. */
  lemma PatternsWithinMasks()
    ensures forall i :: 0 <= i < |RULES| ==> Fires(RULES[i], RULES[i].pattern)
  {
    RulesWellFormed();
    forall i | 0 <= i < |RULES| ensures Fires(RULES[i], RULES[i].pattern) {
      PatternFires(RULES[i]);
    }
  }

  /** Every subclass bit named by a rule is below 16. */
  lemma RuleBitsBelow16()
    ensures forall i :: 0 <= i < |RULES| ==> RULES[i].bit < 16
  {
    RulesWellFormed();
  }

  /** The xc.init encoding fires no rule: only the separate init check looks at it. */
  lemma InitFiresNoRule()
    ensures forall i :: 0 <= i < |RULES| ==> !Fires(RULES[i], INIT_ENCODING)
  {
    RulesWellFormed();
  }

  /**
   * A word outside the custom-1 opcode slot, the all-zero bus included,
   * passes every check whatever the subclass words hold.
   */
  lemma ForeignWordPasses(s: Snapshot)
    requires s.encoded & 0x7F != 0x2B
    ensures SnapshotOk(RULES, s)
    ensures Diagnostics(RULES, s) == []
  {
    RulesOpcodeSlotted();
    ForeignOpcodePasses(RULES, s);
  }

  lemma ZeroWordPasses(s: Snapshot)
    requires s.encoded == 0
    ensures SnapshotOk(RULES, s)
  {
    ForeignWordPasses(s);
  }

  /**
   * A decoder stubbed never to raise the xcr2gpr bit of the move class fails
   * the check, citing xc.xcr2gpr, on any xc.xcr2gpr encoding.
   */
  lemma StubbedXcr2gprFails(s: Snapshot)
    requires s.encoded & 0xfff8707f == 0x1000002b
    requires s.move & 8 == 0
    ensures !SnapshotOk(RULES, s)
    ensures "xc.xcr2gpr" in Diagnostics(RULES, s)
  {
    assert RULES[0] == Rule(0xfff8707f, 0x1000002b, Move, SCLASS_XCR2GPR, "xc.xcr2gpr");
    FailedRuleReported(RULES, s, 0);
  }

  /** For each class, the position of the rule checking each subclass bit, in subclass order. */
  function RulesBySubclass(g: SubclassGroup): seq<nat>
  {
    match g
    case Sha3 => [19, 20, 21, 22, 23]
    case Move => [5, 6, 1, 0]
    case Permute => [63, 62, 64]
    case LoadStore => [36, 37, 38, 39, 70, 59, 69, 58, 68, 57, 32, 31, 30, 35, 34, 33]
    case Bitwise => [66, 40, 65, 67, 61, 60, 44]
    case Palu => [7, 8, 9, 10, 11, 12, 13, 14, 15, 16, 17, 18]
    case Mp => [41, 42, 43, 45, 47, 46, 48, 55, 51, 56, 52, 49, 50, 53, 54]
    case Random => [2, 3, 4]
    case Aes => [24, 25, 26, 27, 28, 29]
  }

  /** Rule r checks bit `bit` of the subclass word of g. */
  predicate ChecksSubclass(r: Rule, g: SubclassGroup, bit: nat)
  {
    r.group == g && r.bit == bit
  }

  /**
   * Every subclass bit of every class is checked by a rule, and there are as
   * many rules as subclasses, so rules and subclass bits correspond one to one.
   */
  lemma EverySubclassChecked(g: SubclassGroup, k: nat)
    requires k < |Subclasses(g)|
    ensures |RulesBySubclass(g)| == |Subclasses(g)|
    ensures RulesBySubclass(g)[k] < |RULES|
    ensures ChecksSubclass(RULES[RulesBySubclass(g)[k]], g, Subclasses(g)[k])
  {
    SubclassesContiguous(g);
    SubclassGroupSizes();
    match g
    case Sha3 => Sha3SubclassChecked(k);
    case Move => MoveSubclassChecked(k);
    case Permute => PermuteSubclassChecked(k);
    case LoadStore => LoadStoreSubclassChecked(k);
    case Bitwise => BitwiseSubclassChecked(k);
    case Palu => PaluSubclassChecked(k);
    case Mp => MpSubclassChecked(k);
    case Random => RandomSubclassChecked(k);
    case Aes => AesSubclassChecked(k);
  }

  lemma Sha3SubclassChecked(k: nat)
    requires k < 5
    ensures RulesBySubclass(Sha3)[k] < |RULES|
    ensures ChecksSubclass(RULES[RulesBySubclass(Sha3)[k]], Sha3, k)
  {
    assert k == 0 || k == 1 || k == 2 || k == 3 || k == 4;
  }

  lemma MoveSubclassChecked(k: nat)
    requires k < 4
    ensures RulesBySubclass(Move)[k] < |RULES|
    ensures ChecksSubclass(RULES[RulesBySubclass(Move)[k]], Move, k)
  {
    assert k == 0 || k == 1 || k == 2 || k == 3;
  }

  lemma PermuteSubclassChecked(k: nat)
    requires k < 3
    ensures RulesBySubclass(Permute)[k] < |RULES|
    ensures ChecksSubclass(RULES[RulesBySubclass(Permute)[k]], Permute, k)
  {
    assert k == 0 || k == 1 || k == 2;
  }

  lemma LoadStoreSubclassChecked(k: nat)
    requires k < 16
    ensures RulesBySubclass(LoadStore)[k] < |RULES|
    ensures ChecksSubclass(RULES[RulesBySubclass(LoadStore)[k]], LoadStore, k)
  {
    assert k == 0 || k == 1 || k == 2 || k == 3 || k == 4 || k == 5 || k == 6 || k == 7 || k == 8
        || k == 9 || k == 10 || k == 11 || k == 12 || k == 13 || k == 14 || k == 15;
  }

  lemma BitwiseSubclassChecked(k: nat)
    requires k < 7
    ensures RulesBySubclass(Bitwise)[k] < |RULES|
    ensures ChecksSubclass(RULES[RulesBySubclass(Bitwise)[k]], Bitwise, k)
  {
    assert k == 0 || k == 1 || k == 2 || k == 3 || k == 4 || k == 5 || k == 6;
  }

  lemma PaluSubclassChecked(k: nat)
    requires k < 12
    ensures RulesBySubclass(Palu)[k] < |RULES|
    ensures ChecksSubclass(RULES[RulesBySubclass(Palu)[k]], Palu, k)
  {
    assert k == 0 || k == 1 || k == 2 || k == 3 || k == 4 || k == 5 || k == 6 || k == 7 || k == 8
        || k == 9 || k == 10 || k == 11;
  }

  lemma MpSubclassChecked(k: nat)
    requires k < 15
    ensures RulesBySubclass(Mp)[k] < |RULES|
    ensures ChecksSubclass(RULES[RulesBySubclass(Mp)[k]], Mp, k)
  {
    assert k == 0 || k == 1 || k == 2 || k == 3 || k == 4 || k == 5 || k == 6 || k == 7 || k == 8
        || k == 9 || k == 10 || k == 11 || k == 12 || k == 13 || k == 14;
  }

  lemma RandomSubclassChecked(k: nat)
    requires k < 3
    ensures RulesBySubclass(Random)[k] < |RULES|
    ensures ChecksSubclass(RULES[RulesBySubclass(Random)[k]], Random, k)
  {
    assert k == 0 || k == 1 || k == 2;
  }

  lemma AesSubclassChecked(k: nat)
    requires k < 6
    ensures RulesBySubclass(Aes)[k] < |RULES|
    ensures ChecksSubclass(RULES[RulesBySubclass(Aes)[k]], Aes, k)
  {
    assert k == 0 || k == 1 || k == 2 || k == 3 || k == 4 || k == 5;
  }

  lemma SubclassCountMatchesRules()
    ensures |Subclasses(Sha3)| + |Subclasses(Move)| + |Subclasses(Permute)|
          + |Subclasses(LoadStore)| + |Subclasses(Bitwise)| + |Subclasses(Palu)|
          + |Subclasses(Mp)| + |Subclasses(Random)| + |Subclasses(Aes)| == |RULES|
  {
    SubclassGroupSizes();
  }
}
