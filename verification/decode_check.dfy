/**
 * What the test bench checks on every settled clock edge: the decoder's
 * probe values, the mask/match rules over the encoded instruction word, the
 * separate check of the init instruction, and the diagnostic lines a failed
 * check prints.  Everything here is independent of the concrete rule table.
 */
module DecodeCheck {
  import opened CopCommon

  /** A bit position within a 32-bit probe word. */
  type BitIndex = k: nat | k < 32

  /**
   * One decode rule: when the encoded word matches `pattern` on the bits of
   * `mask`, bit `bit` of the subclass word of `group` must be set.
   * `mnemonic` is the instruction name the failure message cites.
   */
  datatype Rule = Rule(mask: bv32, pattern: bv32, group: SubclassGroup, bit: BitIndex, mnemonic: string)

  /** The probe values read from the decoder in one settled clock cycle. */
  datatype Snapshot = Snapshot(
    encoded: bv32,
    init: bv32,
    aes: bv32,
    bitwise: bv32,
    loadStore: bv32,
    move: bv32,
    mp: bv32,
    palu: bv32,
    permute: bv32,
    random: bv32,
    sha3: bv32)

  /** The encoding of xc.init, which must raise the init flag instead of a subclass bit. */
  const INIT_ENCODING: bv32 := 0x1110082B

  /** The mnemonic cited when the init flag is missing. */
  const INIT_MNEMONIC := "xc.init"

  /** The subclass word the decoder drives for one class. */
  function SubclassWord(s: Snapshot, g: SubclassGroup): bv32
  {
    match g
    case Sha3 => s.sha3
    case Move => s.move
    case Permute => s.permute
    case LoadStore => s.loadStore
    case Bitwise => s.bitwise
    case Palu => s.palu
    case Mp => s.mp
    case Random => s.random
    case Aes => s.aes
  }

  /** The mask/match test of one rule. */
  predicate Fires(r: Rule, encoded: bv32)
  {
    encoded & r.mask == r.pattern
  }

  /** The word with only bit k set: `1 << k`. */
  function Bit(k: BitIndex): (b: bv32)
    ensures b != 0
  {
    1 << k
  }

  /** `w & (1 << k)` is non-zero. */
  predicate BitSet(w: bv32, k: BitIndex)
  {
    w & Bit(k) != 0
  }

  /** One rule is satisfied by a snapshot: it does not fire, or its subclass bit is set. */
  predicate RuleHolds(r: Rule, s: Snapshot)
  {
    Fires(r, s.encoded) ==> BitSet(SubclassWord(s, r.group), r.bit)
  }

  /** The init check: the exact xc.init encoding must come with a non-zero init flag. */
  predicate InitHolds(s: Snapshot)
  {
    s.encoded == INIT_ENCODING ==> s.init != 0
  }

  /** Every check the bench makes on one snapshot succeeds. */
  predicate SnapshotOk(rules: seq<Rule>, s: Snapshot)
  {
    InitHolds(s) && forall i :: 0 <= i < |rules| ==> RuleHolds(rules[i], s)
  }

  /**
   * The mnemonics of the failed rules, in table order: one diagnostic line
   * per failed rule.
   */
  function Failures(rules: seq<Rule>, s: Snapshot): (f: seq<string>)
    ensures |f| <= |rules|
    ensures f == [] <==> forall i :: 0 <= i < |rules| ==> RuleHolds(rules[i], s)
    ensures forall m :: m in f ==> exists i :: 0 <= i < |rules| && !RuleHolds(rules[i], s) && rules[i].mnemonic == m
  {
    if rules == [] then []
    else
      var last := rules[|rules| - 1];
      var front := Failures(rules[..|rules| - 1], s);
      assert forall i :: 0 <= i < |rules| - 1 ==> rules[..|rules| - 1][i] == rules[i];
      front + (if RuleHolds(last, s) then [] else [last.mnemonic])
  }

  /** Checking one more rule that holds prints nothing more. */
  lemma FailuresStepHolds(rules: seq<Rule>, i: nat, s: Snapshot)
    requires i < |rules| && RuleHolds(rules[i], s)
    ensures Failures(rules[..i + 1], s) == Failures(rules[..i], s)
  {
    assert rules[..i + 1][..i] == rules[..i];
  }

  /** Checking one more rule that fails appends its mnemonic to the lines before it. */
  lemma FailuresStepFails(rules: seq<Rule>, i: nat, s: Snapshot)
    requires i < |rules| && !RuleHolds(rules[i], s)
    ensures Failures(rules[..i + 1], s) == Failures(rules[..i], s) + [rules[i].mnemonic]
  {
    assert rules[..i + 1][..i] == rules[..i];
  }

  /**
   * The rule checks in table order: every rule that fires without its
   * subclass bit prints its mnemonic.  The verdict is lost exactly when
   * something was printed.
   */
  method CheckRules(rules: seq<Rule>, s: Snapshot) returns (ok: bool, lines: seq<string>)
    ensures ok <==> forall i :: 0 <= i < |rules| ==> RuleHolds(rules[i], s)
    ensures lines == Failures(rules, s)
  {
    lines := [];
    var i := 0;
    while i < |rules|
      invariant 0 <= i <= |rules|
      invariant lines == Failures(rules[..i], s)
    {
      var r := rules[i];
      if Fires(r, s.encoded) && !BitSet(SubclassWord(s, r.group), r.bit) {
        FailuresStepFails(rules, i, s);
        lines := lines + [r.mnemonic];
      } else {
        FailuresStepHolds(rules, i, s);
      }
      i := i + 1;
    }
    assert rules[..i] == rules;
    ok := lines == [];
  }

  /** The diagnostic lines one check of a snapshot prints: the init check first, then the rules. */
  function Diagnostics(rules: seq<Rule>, s: Snapshot): seq<string>
  {
    (if InitHolds(s) then [] else [INIT_MNEMONIC]) + Failures(rules, s)
  }

  /** A check prints nothing exactly when it passes. */
  lemma DiagnosticsEmptyIff(rules: seq<Rule>, s: Snapshot)
    ensures Diagnostics(rules, s) == [] <==> SnapshotOk(rules, s)
  {
  }

  /** A rule that fires without its subclass bit is reported by name, and the check fails. */
  lemma FailedRuleReported(rules: seq<Rule>, s: Snapshot, i: nat)
    requires i < |rules|
    requires Fires(rules[i], s.encoded)
    requires !BitSet(SubclassWord(s, rules[i].group), rules[i].bit)
    ensures !SnapshotOk(rules, s)
    ensures rules[i].mnemonic in Diagnostics(rules, s)
  {
    FailedRuleListed(rules, s, i);
  }

  lemma {:induction false} FailedRuleListed(rules: seq<Rule>, s: Snapshot, i: nat)
    requires i < |rules| && !RuleHolds(rules[i], s)
    ensures rules[i].mnemonic in Failures(rules, s)
    decreases |rules|
  {
    var n := |rules| - 1;
    if i < n {
      assert rules[..n][i] == rules[i];
      FailedRuleListed(rules[..n], s, i);
    }
  }

  /**
   * The verdict of a check does not depend on the order of the rules: any
   * permutation of the table passes and fails on the same snapshots.
   */
  lemma RuleOrderIrrelevant(rules: seq<Rule>, reordered: seq<Rule>, s: Snapshot)
    requires multiset(rules) == multiset(reordered)
    ensures SnapshotOk(rules, s) == SnapshotOk(reordered, s)
  {
    forall r | r in rules ensures r in reordered {
      assert r in multiset(rules);
    }
    forall r | r in reordered ensures r in rules {
      assert r in multiset(reordered);
    }
    assert (forall i :: 0 <= i < |rules| ==> RuleHolds(rules[i], s)) <==> (forall r :: r in rules ==> RuleHolds(r, s));
    assert (forall i :: 0 <= i < |reordered| ==> RuleHolds(reordered[i], s)) <==> (forall r :: r in reordered ==> RuleHolds(r, s));
  }

  /**
   * The checks are independent: a snapshot passes a table made of two parts
   * exactly when it passes each part, so an encoding matched by several rules
   * is checked against every one of them.
   */
  lemma ChecksConjoin(front: seq<Rule>, back: seq<Rule>, s: Snapshot)
    ensures SnapshotOk(front + back, s) <==> SnapshotOk(front, s) && SnapshotOk(back, s)
  {
    assert forall i :: 0 <= i < |front| ==> (front + back)[i] == front[i];
    assert forall i :: 0 <= i < |back| ==> (front + back)[|front| + i] == back[i];
  }

  /**
   * Rules that share the opcode slot: every mask covers bits [6:0] and every
   * pattern has 0x2B (custom-1) there.
   */
  predicate OpcodeSlotted(r: Rule)
  {
    r.mask & 0x7F == 0x7F && r.pattern & 0x7F == 0x2B
  }

  /** The pattern lies within the mask (pattern & mask == pattern), so the rule fires on its own pattern. */
  predicate PatternWithinMask(r: Rule)
  {
    r.pattern & r.mask == r.pattern
  }

  lemma PatternFires(r: Rule)
    requires PatternWithinMask(r)
    ensures Fires(r, r.pattern)
  {
  }

  /** A word outside the custom-1 opcode slot fires no rule of that slot. */
  lemma ForeignOpcodeFiresNothing(r: Rule, encoded: bv32)
    requires OpcodeSlotted(r)
    requires encoded & 0x7F != 0x2B
    ensures !Fires(r, encoded)
  {
  }

  /** When the opcode slot filters every rule, a word outside it passes every check. */
  lemma ForeignOpcodePasses(rules: seq<Rule>, s: Snapshot)
    requires forall i :: 0 <= i < |rules| ==> OpcodeSlotted(rules[i])
    requires s.encoded & 0x7F != 0x2B
    ensures SnapshotOk(rules, s)
    ensures Diagnostics(rules, s) == []
  {
    forall i | 0 <= i < |rules| ensures !Fires(rules[i], s.encoded) {
      ForeignOpcodeFiresNothing(rules[i], s.encoded);
    }
  }

  /**
   * The subclass word a conforming decoder drives for class g: the bits of
   * every rule of g that fires on the encoded word.
   */
  function RaisedBits(rules: seq<Rule>, g: SubclassGroup, encoded: bv32): bv32
  {
    if rules == [] then 0
    else
      var last := rules[|rules| - 1];
      var front := RaisedBits(rules[..|rules| - 1], g, encoded);
      if last.group == g && Fires(last, encoded) then front | Bit(last.bit) else front
  }

  /** A decoder that raises exactly the bits the rules ask for, and the init flag for xc.init. */
  function ConformingSnapshot(rules: seq<Rule>, encoded: bv32): Snapshot
  {
    Snapshot(
      encoded,
      if encoded == INIT_ENCODING then 1 else 0,
      RaisedBits(rules, Aes, encoded),
      RaisedBits(rules, Bitwise, encoded),
      RaisedBits(rules, LoadStore, encoded),
      RaisedBits(rules, Move, encoded),
      RaisedBits(rules, Mp, encoded),
      RaisedBits(rules, Palu, encoded),
      RaisedBits(rules, Permute, encoded),
      RaisedBits(rules, Random, encoded),
      RaisedBits(rules, Sha3, encoded))
  }

  lemma OrKeepsBit(w: bv32, k: BitIndex, j: BitIndex)
    requires BitSet(w, k)
    ensures BitSet(w | Bit(j), k)
  {
  }

  lemma OrSetsBit(w: bv32, k: BitIndex)
    ensures BitSet(w | Bit(k), k)
  {
  }

  lemma RaisedBitsStep(rules: seq<Rule>, g: SubclassGroup, encoded: bv32, k: BitIndex)
    requires rules != []
    requires BitSet(RaisedBits(rules[..|rules| - 1], g, encoded), k)
    ensures BitSet(RaisedBits(rules, g, encoded), k)
  {
    var front := RaisedBits(rules[..|rules| - 1], g, encoded);
    var last := rules[|rules| - 1];
    if last.group == g && Fires(last, encoded) {
      OrKeepsBit(front, k, last.bit);
    }
  }

  lemma RaisedBitsLast(rules: seq<Rule>, encoded: bv32)
    requires rules != [] && Fires(rules[|rules| - 1], encoded)
    ensures BitSet(RaisedBits(rules, rules[|rules| - 1].group, encoded), rules[|rules| - 1].bit)
  {
    var last := rules[|rules| - 1];
    OrSetsBit(RaisedBits(rules[..|rules| - 1], last.group, encoded), last.bit);
  }

  lemma {:induction false} RaisedBitsCover(rules: seq<Rule>, i: nat, encoded: bv32)
    requires i < |rules| && Fires(rules[i], encoded)
    ensures BitSet(RaisedBits(rules, rules[i].group, encoded), rules[i].bit)
    decreases |rules|
  {
    var n := |rules| - 1;
    if i == n {
      RaisedBitsLast(rules, encoded);
    } else {
      assert rules[..n][i] == rules[i];
      RaisedBitsCover(rules[..n], i, encoded);
      RaisedBitsStep(rules, rules[i].group, encoded, rules[i].bit);
    }
  }


  /** A word that contains r has every bit r has. */
  lemma ContainedBit(r: bv32, w: bv32, k: BitIndex)
    requires r & w == r && BitSet(r, k)
    ensures BitSet(w, k)
  {
  }

  /**
   * The checker is never stricter than the rules: a decoder that raises at
   * least every bit a firing rule asks for, and the init flag for xc.init,
   * passes, on every encoding, whatever else it raises and whatever the
   * overlaps between rules.
   */
  lemma ConformingDecoderPasses(rules: seq<Rule>, s: Snapshot)
    requires InitHolds(s)
    requires forall g :: RaisedBits(rules, g, s.encoded) & SubclassWord(s, g) == RaisedBits(rules, g, s.encoded)
    ensures SnapshotOk(rules, s)
  {
    forall i | 0 <= i < |rules|
      ensures RuleHolds(rules[i], s)
    {
      if Fires(rules[i], s.encoded) {
        RaisedBitsCover(rules, i, s.encoded);
        ContainedBit(RaisedBits(rules, rules[i].group, s.encoded), SubclassWord(s, rules[i].group), rules[i].bit);
      }
    }
  }

  /** In particular the decoder that raises exactly the bits the rules ask for passes. */
  lemma ExactDecoderPasses(rules: seq<Rule>, encoded: bv32)
    ensures SnapshotOk(rules, ConformingSnapshot(rules, encoded))
  {
    var s := ConformingSnapshot(rules, encoded);
    forall g
      ensures RaisedBits(rules, g, encoded) & SubclassWord(s, g) == RaisedBits(rules, g, encoded)
    {
      ConformingWord(rules, encoded, g);
    }
    ConformingDecoderPasses(rules, s);
  }

  lemma ConformingWord(rules: seq<Rule>, encoded: bv32, g: SubclassGroup)
    ensures SubclassWord(ConformingSnapshot(rules, encoded), g) == RaisedBits(rules, g, encoded)
  {
  }
}
