/**
 * The constant tables shared by the XCrypto co-processor decoder and its
 * test bench: instruction status codes, instruction classes, the bit index
 * of every instruction subclass within its class's subclass word, the
 * random-number-generator type and the packed-width field codes.
 */
module CopCommon {

  // Instruction status codes.
  const INSN_SUCCESS := 0
  const INSN_ABORT := 1
  const INSN_BAD_INS := 2
  const INSN_BAD_LAD := 3
  const INSN_BAD_SAD := 4
  const INSN_LD_ERR := 5
  const INSN_ST_ERR := 6

  // Instruction classes.
  const ICLASS_PACKED_ARITH := 0
  const ICLASS_PERMUTE := 1
  const ICLASS_LOADSTORE := 2
  const ICLASS_RANDOM := 3
  const ICLASS_MOVE := 4
  const ICLASS_MP := 5
  const ICLASS_BITWISE := 6
  const ICLASS_AES := 7
  const ICLASS_SHA3 := 8

  // Subclass bit indices, class by class.
  const SCLASS_SHA3_XY := 0
  const SCLASS_SHA3_X1 := 1
  const SCLASS_SHA3_X2 := 2
  const SCLASS_SHA3_X4 := 3
  const SCLASS_SHA3_YX := 4

  const SCLASS_CMOV_T := 0
  const SCLASS_CMOV_F := 1
  const SCLASS_GPR2XCR := 2
  const SCLASS_XCR2GPR := 3

  const SCLASS_PERM_BIT := 0
  const SCLASS_PERM_IBIT := 1
  const SCLASS_PERM_BYTE := 2

  const SCLASS_SCATTER_B := 0
  const SCLASS_GATHER_B := 1
  const SCLASS_SCATTER_H := 2
  const SCLASS_GATHER_H := 3
  const SCLASS_ST_W := 4
  const SCLASS_LD_W := 5
  const SCLASS_ST_H := 6
  const SCLASS_LH_CR := 7
  const SCLASS_ST_B := 8
  const SCLASS_LB_CR := 9
  const SCLASS_LDR_W := 10
  const SCLASS_LDR_H := 11
  const SCLASS_LDR_B := 12
  const SCLASS_STR_W := 13
  const SCLASS_STR_H := 14
  const SCLASS_STR_B := 15

  const SCLASS_BMV := 0
  const SCLASS_BOP := 1
  const SCLASS_INS := 2
  const SCLASS_EXT := 3
  const SCLASS_LD_LIU := 4
  const SCLASS_LD_HIU := 5
  const SCLASS_LUT := 6

  const SCLASS_PADD := 0
  const SCLASS_PSUB := 1
  const SCLASS_PMUL_L := 2
  const SCLASS_PMUL_H := 3
  const SCLASS_PCLMUL_L := 4
  const SCLASS_PCLMUL_H := 5
  const SCLASS_PSLL := 6
  const SCLASS_PSRL := 7
  const SCLASS_PROT := 8
  const SCLASS_PSLL_I := 9
  const SCLASS_PSRL_I := 10
  const SCLASS_PROT_I := 11

  const SCLASS_MEQU := 0
  const SCLASS_MLTE := 1
  const SCLASS_MGTE := 2
  const SCLASS_MADD_3 := 3
  const SCLASS_MADD_2 := 4
  const SCLASS_MSUB_3 := 5
  const SCLASS_MSUB_2 := 6
  const SCLASS_MSLL_I := 7
  const SCLASS_MSLL := 8
  const SCLASS_MSRL_I := 9
  const SCLASS_MSRL := 10
  const SCLASS_MACC_2 := 11
  const SCLASS_MACC_1 := 12
  const SCLASS_MMUL_3 := 13
  const SCLASS_MCLMUL_3 := 14

  const SCLASS_RSEED := 0
  const SCLASS_RSAMP := 1
  const SCLASS_RTEST := 2

  const SCLASS_AESSUB_ENC := 0
  const SCLASS_AESSUB_ENCROT := 1
  const SCLASS_AESSUB_DEC := 2
  const SCLASS_AESSUB_DECROT := 3
  const SCLASS_AESMIX_ENC := 4
  const SCLASS_AESMIX_DEC := 5

  const RNG_TYPE_LFSR32 := 0

  // Packed-width field codes, for lanes of 1, 2, 4, 8 and 16 bits.
  const PW_1 := 5
  const PW_2 := 4
  const PW_4 := 3
  const PW_8 := 2
  const PW_16 := 1

  /** The nine instruction classes whose decoder output is a word of subclass bits. */
  datatype SubclassGroup = Sha3 | Move | Permute | LoadStore | Bitwise | Palu | Mp | Random | Aes

  /** The subclass indices of one class, in the order the header lists them. */
  function Subclasses(g: SubclassGroup): seq<nat>
  {
    match g
    case Sha3 => [SCLASS_SHA3_XY, SCLASS_SHA3_X1, SCLASS_SHA3_X2, SCLASS_SHA3_X4, SCLASS_SHA3_YX]
    case Move => [SCLASS_CMOV_T, SCLASS_CMOV_F, SCLASS_GPR2XCR, SCLASS_XCR2GPR]
    case Permute => [SCLASS_PERM_BIT, SCLASS_PERM_IBIT, SCLASS_PERM_BYTE]
    case LoadStore =>
      [SCLASS_SCATTER_B, SCLASS_GATHER_B, SCLASS_SCATTER_H, SCLASS_GATHER_H,
       SCLASS_ST_W, SCLASS_LD_W, SCLASS_ST_H, SCLASS_LH_CR,
       SCLASS_ST_B, SCLASS_LB_CR, SCLASS_LDR_W, SCLASS_LDR_H,
       SCLASS_LDR_B, SCLASS_STR_W, SCLASS_STR_H, SCLASS_STR_B]
    case Bitwise =>
      [SCLASS_BMV, SCLASS_BOP, SCLASS_INS, SCLASS_EXT, SCLASS_LD_LIU, SCLASS_LD_HIU, SCLASS_LUT]
    case Palu =>
      [SCLASS_PADD, SCLASS_PSUB, SCLASS_PMUL_L, SCLASS_PMUL_H, SCLASS_PCLMUL_L, SCLASS_PCLMUL_H,
       SCLASS_PSLL, SCLASS_PSRL, SCLASS_PROT, SCLASS_PSLL_I, SCLASS_PSRL_I, SCLASS_PROT_I]
    case Mp =>
      [SCLASS_MEQU, SCLASS_MLTE, SCLASS_MGTE, SCLASS_MADD_3, SCLASS_MADD_2,
       SCLASS_MSUB_3, SCLASS_MSUB_2, SCLASS_MSLL_I, SCLASS_MSLL, SCLASS_MSRL_I,
       SCLASS_MSRL, SCLASS_MACC_2, SCLASS_MACC_1, SCLASS_MMUL_3, SCLASS_MCLMUL_3]
    case Random => [SCLASS_RSEED, SCLASS_RSAMP, SCLASS_RTEST]
    case Aes =>
      [SCLASS_AESSUB_ENC, SCLASS_AESSUB_ENCROT, SCLASS_AESSUB_DEC,
       SCLASS_AESSUB_DECROT, SCLASS_AESMIX_ENC, SCLASS_AESMIX_DEC]
  }

  /** The instruction class codes, in the order the header lists them. */
  const ICLASSES: seq<nat> :=
    [ICLASS_PACKED_ARITH, ICLASS_PERMUTE, ICLASS_LOADSTORE, ICLASS_RANDOM, ICLASS_MOVE,
     ICLASS_MP, ICLASS_BITWISE, ICLASS_AES, ICLASS_SHA3]

  /** The instruction status codes, in the order the header lists them. */
  const INSN_CODES: seq<nat> :=
    [INSN_SUCCESS, INSN_ABORT, INSN_BAD_INS, INSN_BAD_LAD, INSN_BAD_SAD, INSN_LD_ERR, INSN_ST_ERR]

  /** The packed-width codes indexed by log2 of the lane width (1, 2, 4, 8, 16 bits). */
  const PACK_WIDTHS: seq<nat> := [PW_1, PW_2, PW_4, PW_8, PW_16]

  /** The list 0, 1, ..., n - 1. */
  function Range(n: nat): (r: seq<nat>)
    ensures |r| == n
    ensures forall i :: 0 <= i < n ==> r[i] == i
  {
    seq(n, i => i)
  }

  /** Every entry of s differs from every other. */
  predicate Distinct(s: seq<nat>)
  {
    forall i, j :: 0 <= i < j < |s| ==> s[i] != s[j]
  }

  lemma RangeDistinct(n: nat)
    ensures Distinct(Range(n))
  {
  }

  /** Each class numbers its subclasses 0, 1, ..., size - 1 in header order. */
  lemma SubclassesContiguous(g: SubclassGroup)
    ensures Subclasses(g) == Range(|Subclasses(g)|)
  {
  }

  /** Within a class no two subclasses share a bit. */
  lemma SubclassesDistinct(g: SubclassGroup)
    ensures Distinct(Subclasses(g))
  {
    SubclassesContiguous(g);
    RangeDistinct(|Subclasses(g)|);
  }

  /** The class sizes; the largest (load/store) has 16 subclasses. */
  lemma SubclassGroupSizes()
    ensures |Subclasses(Sha3)| == 5 && |Subclasses(Move)| == 4 && |Subclasses(Permute)| == 3
    ensures |Subclasses(LoadStore)| == 16 && |Subclasses(Bitwise)| == 7 && |Subclasses(Palu)| == 12
    ensures |Subclasses(Mp)| == 15 && |Subclasses(Random)| == 3 && |Subclasses(Aes)| == 6
  {
  }

  /** Every subclass index is below 16, so its bit lies in the low half of a 32-bit word. */
  lemma SubclassesBelow16(g: SubclassGroup)
    ensures forall i :: 0 <= i < |Subclasses(g)| ==> Subclasses(g)[i] < 16
  {
    SubclassesContiguous(g);
    SubclassGroupSizes();
  }

  /** The class codes are exactly 0..8 and the status codes exactly 0..6, success being 0. */
  lemma ClassAndStatusCodes()
    ensures ICLASSES == Range(9) && Distinct(ICLASSES)
    ensures INSN_CODES == Range(7) && Distinct(INSN_CODES)
    ensures INSN_SUCCESS == 0
  {
    RangeDistinct(9);
    RangeDistinct(7);
  }

  /** PW_n is 5 - log2 n: it drops by one each time the lane width doubles. */
  lemma PackWidthCodes()
    ensures forall k :: 0 <= k < |PACK_WIDTHS| ==> PACK_WIDTHS[k] == 5 - k
    ensures forall k :: 0 < k < |PACK_WIDTHS| ==> PACK_WIDTHS[k] < PACK_WIDTHS[k - 1]
  {
  }
}
