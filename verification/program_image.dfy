/**
 * The program image the test bench loads into the core's RAM before letting
 * it run: one encoding of every XCrypto instruction the rules check, stored
 * little-endian at consecutive word addresses from 0x80.
 */
module ProgramImage {
  import opened DecodeCheck
  import opened RuleTable

  /** A 32-bit byte address; address arithmetic wraps around modulo 2^32. */
  type Addr = a: int | 0 <= a < 0x1_0000_0000

  /** A byte, held in the low eight bits of a 32-bit word. */
  type Byte = b: bv32 | b <= 0xFF

  /** The RAM contents the bench has poked: address to byte. */
  type Ram = map<Addr, Byte>

  /** `a + d` in 32-bit unsigned arithmetic. */
  function AddrAdd(a: Addr, d: nat): (r: Addr)
    ensures a + d < 0x1_0000_0000 ==> r == a + d
  {
    (a + d) % 0x1_0000_0000
  }

  /** Execution begins at 0x80, so the image is stored from there. */
  const PROGRAM_BASE: Addr := 0x80

  /** The number of words in the image: one per rule plus xc.init. */
  const PROGRAM_SIZE := 72

  /**
   * Word j of the image, in load order.  The blocks line up with the blocks
   * of the rule table: block 0 holds the words for rules 0 to 17 and the
   * xc.init word, block b > 0 the words for rules 18b to 18b + 17.
   */
  function ProgramWord(j: nat): bv32
    requires j < PROGRAM_SIZE
  {
    if j < 19 then ProgramBlock0(j)
    else if j < 37 then ProgramBlock1(j - 19)
    else if j < 55 then ProgramBlock2(j - 37)
    else ProgramBlock3(j - 55)
  }

  /** Words 0 to 18, counted from 0. */
  function ProgramBlock0(j: nat): bv32
    requires j < 19
  {
    match j
    case 0 => 0x1000002b
    case 1 => 0x1100002b
    case 2 => 0x1110082b
    case 3 => 0x800002b
    case 4 => 0x810082b
    case 5 => 0x820002b
    case 6 => 0x1800082b
    case 7 => 0x1800002b
    case 8 => 0x2600002b
    case 9 => 0x2600082b
    case 10 => 0x2e00002b
    case 11 => 0x2e00082b
    case 12 => 0x2e08002b
    case 13 => 0x2e08082b
    case 14 => 0x3600002b
    case 15 => 0x3600082b
    case 16 => 0x3608082b
    case 17 => 0x3e00002b
    case _ => 0x3e00082b
  }

  /** Words 19 to 36, counted from 19. */
  function ProgramBlock1(j: nat): bv32
    requires j < 18
  {
    match j
    case 0 => 0x3e08082b
    case 1 => 0xc00002b
    case 2 => 0x1400002b
    case 3 => 0x2400002b
    case 4 => 0x1c00002b
    case 5 => 0x3400002b
    case 6 => 0x400002b
    case 7 => 0x400082b
    case 8 => 0x408002b
    case 9 => 0x408082b
    case 10 => 0x500002b
    case 11 => 0x508002b
    case 12 => 0x200002b
    case 13 => 0x1200002b
    case 14 => 0x2200002b
    case 15 => 0x200082b
    case 16 => 0x1200082b
    case _ => 0x2200082b
  }

  /** Words 37 to 54, counted from 37. */
  function ProgramBlock2(j: nat): bv32
    requires j < 18
  {
    match j
    case 0 => 0xa00082b
    case 1 => 0xa00002b
    case 2 => 0xb00082b
    case 3 => 0xb00002b
    case 4 => 0x682b
    case 5 => 0x702b
    case 6 => 0x1000702b
    case 7 => 0x2000702b
    case 8 => 0x3008702b
    case 9 => 0x4000702b
    case 10 => 0x6000702b
    case 11 => 0x5000702b
    case 12 => 0x5100702b
    case 13 => 0x5200702b
    case 14 => 0x5f00702b
    case 15 => 0x7000782b
    case 16 => 0x8000782b
    case _ => 0x9000782b
  }

  /** Words 55 to 71, counted from 55. */
  function ProgramBlock3(j: nat): bv32
    requires j < 17
  {
    match j
    case 0 => 0xa000782b
    case 1 => 0xc000742b
    case 2 => 0x8000742b
    case 3 => 0x102b
    case 4 => 0x202b
    case 5 => 0x302b
    case 6 => 0x10302b
    case 7 => 0x10382b
    case 8 => 0x10202b
    case 9 => 0x10282b
    case 10 => 0x30202b
    case 11 => 0x30282b
    case 12 => 0x38202b
    case 13 => 0x38282b
    case 14 => 0x402b
    case 15 => 0x502b
    case _ => 0x602b
  }

  /** The instruction words of the image, in load order. */
  const PROGRAM: seq<bv32> := WordList()

  function WordList(): (ws: seq<bv32>)
    ensures |ws| == PROGRAM_SIZE
    ensures forall j :: 0 <= j < PROGRAM_SIZE ==> ws[j] == ProgramWord(j)
  {
    seq(PROGRAM_SIZE, j requires 0 <= j < PROGRAM_SIZE => ProgramWord(j))
  }

  /** The low byte of a word, `x & 0xFF`. */
  function LowByte(x: bv32): Byte
  {
    x & 0xFF
  }

  /** The memory after the four byte writes of one word, least significant byte first. */
  function StoreWord(m: Ram, a: Addr, w: bv32): Ram
  {
    m[AddrAdd(a, 0) := LowByte(w >> 0)]
     [AddrAdd(a, 1) := LowByte(w >> 8)]
     [AddrAdd(a, 2) := LowByte(w >> 16)]
     [AddrAdd(a, 3) := LowByte(w >> 24)]
  }

  /** The four bytes at a hold a word. */
  predicate HoldsWord(m: Ram, a: Addr)
  {
    forall k :: 0 <= k < 4 ==> AddrAdd(a, k) in m
  }

  /** The word whose bytes, least significant first, are b0, b1, b2 and b3. */
  function LittleEndian(b0: Byte, b1: Byte, b2: Byte, b3: Byte): bv32
  {
    b0 | (b1 << 8) | (b2 << 16) | (b3 << 24)
  }

  /** The little-endian word made of the four bytes at a. */
  function LoadWord(m: Ram, a: Addr): bv32
    requires HoldsWord(m, a)
  {
    LittleEndian(m[AddrAdd(a, 0)], m[AddrAdd(a, 1)], m[AddrAdd(a, 2)], m[AddrAdd(a, 3)])
  }

  /** Splitting a word into its four bytes and putting them back together little-endian gives the word. */
  lemma LittleEndianBytes(w: bv32)
    ensures LittleEndian(LowByte(w >> 0), LowByte(w >> 8), LowByte(w >> 16), LowByte(w >> 24)) == w
  {
  }

  /** The four addresses of a word are distinct, so each holds its own byte after the store. */
  lemma StoredBytes(m: Ram, a: Addr, w: bv32)
    ensures StoreWord(m, a, w)[AddrAdd(a, 0)] == LowByte(w >> 0)
    ensures StoreWord(m, a, w)[AddrAdd(a, 1)] == LowByte(w >> 8)
    ensures StoreWord(m, a, w)[AddrAdd(a, 2)] == LowByte(w >> 16)
    ensures StoreWord(m, a, w)[AddrAdd(a, 3)] == LowByte(w >> 24)
  {
  }

  /** After a store, the four bytes of the word are present. */
  lemma StoreWordHolds(m: Ram, a: Addr, w: bv32)
    ensures HoldsWord(StoreWord(m, a, w), a)
  {
  }

  /** Storing a word and loading it back yields the word, wherever it is stored. */
  lemma LoadStoreWord(m: Ram, a: Addr, w: bv32)
    ensures HoldsWord(StoreWord(m, a, w), a)
    ensures LoadWord(StoreWord(m, a, w), a) == w
  {
    StoreWordHolds(m, a, w);
    StoredBytes(m, a, w);
    LittleEndianBytes(w);
  }

  /** Storing a word changes exactly its four bytes. */
  lemma StoreWordFrame(m: Ram, a: Addr, w: bv32, x: Addr)
    ensures x in StoreWord(m, a, w) <==> x in m || exists k :: 0 <= k < 4 && x == AddrAdd(a, k)
    ensures (forall k :: 0 <= k < 4 ==> x != AddrAdd(a, k)) && x in m ==> StoreWord(m, a, w)[x] == m[x]
  {
  }

  /** Storing a word leaves a word stored wholly below it unchanged. */
  lemma StoreWordKeeps(m: Ram, a: Addr, w: bv32, b: Addr)
    requires HoldsWord(m, b)
    requires b + 4 <= a && a + 4 <= 0x1_0000_0000
    ensures HoldsWord(StoreWord(m, a, w), b)
    ensures LoadWord(StoreWord(m, a, w), b) == LoadWord(m, b)
  {
    var m' := StoreWord(m, a, w);
    forall k | 0 <= k < 4 ensures AddrAdd(b, k) in m' && m'[AddrAdd(b, k)] == m[AddrAdd(b, k)] {
      StoreWordFrame(m, a, w, AddrAdd(b, k));
    }
  }

  /** The memory after storing the words of ws one after another at consecutive word addresses from base. */
  function StoreWords(m: Ram, base: Addr, ws: seq<bv32>): Ram
  {
    if ws == [] then m
    else
      var n := |ws| - 1;
      StoreWord(StoreWords(m, base, ws[..n]), AddrAdd(base, 4 * n), ws[n])
  }

  /** Storing the first i + 1 words is storing the first i, then word i at base + 4i. */
  lemma StoreWordsNext(m: Ram, base: Addr, ws: seq<bv32>, i: nat)
    requires i < |ws|
    ensures StoreWords(m, base, ws[..i + 1]) == StoreWord(StoreWords(m, base, ws[..i]), AddrAdd(base, 4 * i), ws[i])
  {
    assert ws[..i + 1][..i] == ws[..i];
  }

  /** The last word of ws is stored at base + 4(|ws| - 1). */
  lemma StoreWordsLast(m: Ram, base: Addr, ws: seq<bv32>)
    requires ws != [] && base + 4 * |ws| <= 0x1_0000_0000
    ensures HoldsWord(StoreWords(m, base, ws), base + 4 * (|ws| - 1))
    ensures LoadWord(StoreWords(m, base, ws), base + 4 * (|ws| - 1)) == ws[|ws| - 1]
  {
    var n := |ws| - 1;
    LoadStoreWord(StoreWords(m, base, ws[..n]), base + 4 * n, ws[n]);
  }

  /** Storing the last word of ws leaves the earlier words where they were. */
  lemma StoreWordsKeep(m: Ram, base: Addr, ws: seq<bv32>, i: nat)
    requires i < |ws| - 1 && base + 4 * |ws| <= 0x1_0000_0000
    requires HoldsWord(StoreWords(m, base, ws[..|ws| - 1]), base + 4 * i)
    ensures HoldsWord(StoreWords(m, base, ws), base + 4 * i)
    ensures LoadWord(StoreWords(m, base, ws), base + 4 * i) == LoadWord(StoreWords(m, base, ws[..|ws| - 1]), base + 4 * i)
  {
    var n := |ws| - 1;
    StoreWordKeeps(StoreWords(m, base, ws[..n]), base + 4 * n, ws[n], base + 4 * i);
  }

  /**
   * When the words fit below the top of the address space, word i can be
   * loaded back from base + 4i.
   */
  lemma {:induction false} StoreWordsLayout(m: Ram, base: Addr, ws: seq<bv32>, i: nat)
    requires i < |ws| && base + 4 * |ws| <= 0x1_0000_0000
    ensures HoldsWord(StoreWords(m, base, ws), base + 4 * i)
    ensures LoadWord(StoreWords(m, base, ws), base + 4 * i) == ws[i]
    decreases |ws|
  {
    var n := |ws| - 1;
    if i == n {
      StoreWordsLast(m, base, ws);
    } else {
      StoreWordsLayout(m, base, ws[..n], i);
      StoreWordsKeep(m, base, ws, i);
    }
  }

  /** Storing the words touches exactly the bytes from base to base + 4|ws|. */
  lemma {:induction false} StoreWordsFrame(m: Ram, base: Addr, ws: seq<bv32>, x: Addr)
    requires base + 4 * |ws| <= 0x1_0000_0000
    requires x < base || base + 4 * |ws| <= x
    ensures x in StoreWords(m, base, ws) <==> x in m
    ensures x in m ==> StoreWords(m, base, ws)[x] == m[x]
    decreases |ws|
  {
    if ws != [] {
      var n := |ws| - 1;
      StoreWordsFrame(m, base, ws[..n], x);
      StoreWordFrame(StoreWords(m, base, ws[..n]), base + 4 * n, ws[n], x);
    }
  }

  /**
   * Where each rule's test encoding sits in the image: rules 0 and 1 at
   * words 0 and 1, then xc.init at word 2, then rule i at word i + 1.
   */
  function Slot(i: nat): (j: nat)
    requires i < RULE_COUNT
    ensures j < PROGRAM_SIZE && j != 2
    ensures i < j + 1 && j <= i + 1
  {
    if i < 2 then i else i + 1
  }

  /** Rules 0 and 1 fire on words 0 and 1. */
  lemma BlockCovers0Head(j: nat)
    requires j < 2
    ensures Fires(RuleBlock0(j), ProgramBlock0(j))
  {
    assert j == 0 || j == 1;
  }

  /** Rules 2 to 9 fire on words 3 to 10, past the xc.init word. */
  lemma BlockCovers0Low(j: nat)
    requires 2 <= j < 10
    ensures Fires(RuleBlock0(j), ProgramBlock0(j + 1))
  {
    assert j == 2 || j == 3 || j == 4 || j == 5 || j == 6 || j == 7 || j == 8 || j == 9;
  }

  /** Rules 10 to 17 fire on words 11 to 18. */
  lemma BlockCovers0High(j: nat)
    requires 10 <= j < 18
    ensures Fires(RuleBlock0(j), ProgramBlock0(j + 1))
  {
    assert j == 10 || j == 11 || j == 12 || j == 13 || j == 14 || j == 15 || j == 16 || j == 17;
  }

  /** Rule 18 + j fires on word 19 + j. */
  lemma BlockCovers1(j: nat)
    requires j < 18
    ensures Fires(RuleBlock1(j), ProgramBlock1(j))
  {
    assert j == 0 || j == 1 || j == 2 || j == 3 || j == 4 || j == 5 || j == 6 || j == 7 || j == 8
        || j == 9 || j == 10 || j == 11 || j == 12 || j == 13 || j == 14 || j == 15 || j == 16 || j == 17;
  }

  /** Rule 36 + j fires on word 37 + j. */
  lemma BlockCovers2(j: nat)
    requires j < 18
    ensures Fires(RuleBlock2(j), ProgramBlock2(j))
  {
    assert j == 0 || j == 1 || j == 2 || j == 3 || j == 4 || j == 5 || j == 6 || j == 7 || j == 8
        || j == 9 || j == 10 || j == 11 || j == 12 || j == 13 || j == 14 || j == 15 || j == 16 || j == 17;
  }

  /** Rule 54 + j fires on word 55 + j. */
  lemma BlockCovers3(j: nat)
    requires j < 17
    ensures Fires(RuleBlock3(j), ProgramBlock3(j))
  {
    assert j == 0 || j == 1 || j == 2 || j == 3 || j == 4 || j == 5 || j == 6 || j == 7 || j == 8
        || j == 9 || j == 10 || j == 11 || j == 12 || j == 13 || j == 14 || j == 15 || j == 16;
  }

  /** The rule at position i fires on the image word at Slot(i). */
  lemma SlotCovers(i: nat)
    requires i < RULE_COUNT
    ensures Fires(RuleAt(i), ProgramWord(Slot(i)))
  {
    if i < 2 {
      BlockCovers0Head(i);
    } else if i < 10 {
      BlockCovers0Low(i);
    } else if i < 18 {
      BlockCovers0High(i);
    } else if i < 36 {
      BlockCovers1(i - 18);
    } else if i < 54 {
      BlockCovers2(i - 36);
    } else {
      BlockCovers3(i - 54);
    }
  }

  /**
   * The image exercises the whole decoder: word 2 is the xc.init encoding and
   * every rule fires on the word at its slot.
   */
  lemma ProgramCoversRules()
    ensures |PROGRAM| == PROGRAM_SIZE && PROGRAM[2] == INIT_ENCODING
    ensures forall i :: 0 <= i < RULE_COUNT ==> Fires(RULES[i], PROGRAM[Slot(i)])
  {
    forall i | 0 <= i < RULE_COUNT ensures Fires(RULES[i], PROGRAM[Slot(i)]) {
      SlotCovers(i);
    }
  }

  /** The first byte past the image: 72 words from 0x80 end at 0x1A0. */
  const PROGRAM_END: Addr := 0x1A0

  /** Once loaded, the image holds the xc.init encoding at 0x88. */
  lemma LoadedInit(m: Ram)
    ensures HoldsWord(StoreWords(m, PROGRAM_BASE, PROGRAM), PROGRAM_BASE + 8)
    ensures LoadWord(StoreWords(m, PROGRAM_BASE, PROGRAM), PROGRAM_BASE + 8) == INIT_ENCODING
  {
    ProgramCoversRules();
    StoreWordsLayout(m, PROGRAM_BASE, PROGRAM, 2);
  }

  /** Once loaded, the image holds at 0x80 + 4 * Slot(i) a word that fires rule i. */
  lemma LoadedCoversRule(m: Ram, i: nat)
    requires i < RULE_COUNT
    ensures HoldsWord(StoreWords(m, PROGRAM_BASE, PROGRAM), PROGRAM_BASE + 4 * Slot(i))
    ensures Fires(RULES[i], LoadWord(StoreWords(m, PROGRAM_BASE, PROGRAM), PROGRAM_BASE + 4 * Slot(i)))
  {
    ProgramCoversRules();
    StoreWordsLayout(m, PROGRAM_BASE, PROGRAM, Slot(i));
  }

  /** Loading the image changes no byte outside 0x80..0x19F. */
  lemma LoadedFrame(m: Ram, x: Addr)
    requires x < PROGRAM_BASE || PROGRAM_END <= x
    ensures x in StoreWords(m, PROGRAM_BASE, PROGRAM) <==> x in m
    ensures x in m ==> StoreWords(m, PROGRAM_BASE, PROGRAM)[x] == m[x]
  {
    StoreWordsFrame(m, PROGRAM_BASE, PROGRAM, x);
  }
}
