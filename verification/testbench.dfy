/**
 * The test bench that drives the Verilated core: it clocks the model,
 * checks the decoder's probe values on every cycle, talks to the debug unit
 * through its request/grant/rvalid handshake and pokes a program into RAM.
 *
 * The Verilated circuit itself is not modelled.  It is an oracle: its
 * outputs after an evaluation are a function of every evaluation (with the
 * input pins it saw) and every RAM poke so far.
 */
module Testbench {
  import opened DecodeCheck
  import opened RuleTable
  import opened ProgramImage

  /** The input pins of the core that the bench drives, other than the clock. */
  datatype Pins = Pins(
    rstn: bool,
    irq: bool,
    fetchEnable: bool,
    debugReq: bool,
    debugAddr: bv32,
    debugWe: bool,
    debugWdata: bv32)

  /**
   * One thing the bench does to the circuit: evaluate it with a clock level
   * and the other pins, or poke a RAM byte.
   */
  datatype Stimulus = Eval(clk: bool, pins: Pins) | WriteByte(addr: Addr, value: Byte)

  /** What the bench reads back after an evaluation: the decoder probes and the debug outputs. */
  datatype Outputs = Outputs(probe: Snapshot, debugGnt: bool, debugRvalid: bool, debugRdata: bv32)

  /** The circuit: its outputs after a history of stimuli. */
  type Circuit = seq<Stimulus> -> Outputs

  /** One clock cycle as the bench saw it: the pins of its rising edge and the outputs after it. */
  datatype Cycle = Cycle(pins: Pins, out: Outputs)

  /** The outcome of a debug access: the value read (or written), or no answer within the cycle budget. */
  datatype DebugResult = Completed(value: bv32) | Stalled

  /** The outcome of a run: the process exit code, or a poll that never ended within its budget. */
  datatype RunResult = ExitCode(code: int) | Hang

  // Debug unit register addresses.
  const DBG_CTRL: bv32 := 0x0000
  const DBG_HIT: bv32 := 0x0004
  const DBG_IE: bv32 := 0x0008
  const DBG_CAUSE: bv32 := 0x000c
  const DBG_GPR0: bv32 := 0x0400
  const DBG_GPR31: bv32 := 0x047c
  const DBG_NPC: bv32 := 0x2000
  const DBG_PPC: bv32 := 0x2004

  // Debug control register flags.
  const DBG_CTRL_HALT: bv32 := 0x00010000
  const DBG_CTRL_SSTE: bv32 := 0x00000001

  /** The pins with every input low and the debug buses zero. */
  const QUIET_PINS := Pins(false, false, false, false, 0, false, 0)

  /** The stimuli of n clock cycles from pins p: a low-phase and a high-phase evaluation each. */
  function Spin(p: Pins, n: nat): (s: seq<Stimulus>)
    ensures |s| == 2 * n
  {
    if n == 0 then []
    else Spin(p, n - 1) + [Eval(false, p)] + [Eval(true, p)]
  }

  /** The cycles the bench sees while spinning n cycles from history h and pins p. */
  function SpinCycles(circuit: Circuit, h: seq<Stimulus>, p: Pins, n: nat): (cs: seq<Cycle>)
    ensures |cs| == n
  {
    if n == 0 then []
    else SpinCycles(circuit, h, p, n - 1) + [Cycle(p, circuit(h + Spin(p, n)))]
  }

  /** One more spun cycle extends the stimuli and the cycles of the first n. */
  lemma SpinAdvance(circuit: Circuit, h: seq<Stimulus>, p: Pins, t: seq<Cycle>, n: nat, h1: seq<Stimulus>, t1: seq<Cycle>)
    requires h1 == h + Spin(p, n) + [Eval(false, p)] + [Eval(true, p)]
    requires t1 == t + SpinCycles(circuit, h, p, n) + [Cycle(p, circuit(h1))]
    ensures h1 == h + Spin(p, n + 1)
    ensures t1 == t + SpinCycles(circuit, h, p, n + 1)
  {
    assert Spin(p, n + 1) == Spin(p, n) + [Eval(false, p)] + [Eval(true, p)];
    assert SpinCycles(circuit, h, p, n + 1) == SpinCycles(circuit, h, p, n) + [Cycle(p, circuit(h + Spin(p, n + 1)))];
  }

  /** Spinning one more cycle after i cycles is spinning i + 1 cycles. */
  lemma SpinMore(circuit: Circuit, h: seq<Stimulus>, p: Pins, t: seq<Cycle>, i: nat)
    ensures h + Spin(p, i) + Spin(p, 1) == h + Spin(p, i + 1)
    ensures t + SpinCycles(circuit, h, p, i) + SpinCycles(circuit, h + Spin(p, i), p, 1) == t + SpinCycles(circuit, h, p, i + 1)
  {
    assert Spin(p, 1) == [Eval(false, p)] + [Eval(true, p)];
    assert h + Spin(p, i) + Spin(p, 1) == h + Spin(p, i + 1);
    assert SpinCycles(circuit, h + Spin(p, i), p, 1) == [Cycle(p, circuit(h + Spin(p, i) + Spin(p, 1)))];
    SpinAdvance(circuit, h, p, t, i, h + Spin(p, i + 1), t + SpinCycles(circuit, h, p, i + 1));
  }

  /** Cycle k of a spin is a low-phase evaluation followed by a high-phase evaluation with the same pins. */
  lemma {:induction false} SpinAt(p: Pins, n: nat, k: nat)
    requires k < n
    ensures Spin(p, n)[2 * k] == Eval(false, p) && Spin(p, n)[2 * k + 1] == Eval(true, p)
  {
    if k < n - 1 {
      SpinAt(p, n - 1, k);
    }
  }

  /**
   * Cycle k of a spin shows the pins of the spin and the outputs after its
   * first k + 1 cycles: the check of every cycle follows its rising edge.
   */
  lemma {:induction false} SpinCyclesAt(circuit: Circuit, h: seq<Stimulus>, p: Pins, n: nat, k: nat)
    requires k < n
    ensures SpinCycles(circuit, h, p, n)[k] == Cycle(p, circuit(h + Spin(p, k + 1)))
  {
    if k < n - 1 {
      SpinCyclesAt(circuit, h, p, n - 1, k);
    }
  }

  /**
   * The outputs the circuit shows after history h.  Named so that the cycle
   * definitions below refer to the circuit's response by one term.
   */
  function Observe(circuit: Circuit, h: seq<Stimulus>): Outputs
  {
    circuit(h)
  }

  /**
   * The clock cycles a history of stimuli makes: one per high-phase
   * evaluation, showing its pins and the outputs right after it.  Low-phase
   * evaluations and RAM pokes make no cycle.
   */
  function CyclesOf(circuit: Circuit, h: seq<Stimulus>): seq<Cycle>
  {
    CyclesUpTo(circuit, h, |h|)
  }

  /** The cycle stimulus i of h makes, if it is a high-phase evaluation. */
  function CycleAt(circuit: Circuit, h: seq<Stimulus>, i: nat): seq<Cycle>
    requires i < |h|
  {
    match h[i]
    case Eval(clk, p) => if clk then [Cycle(p, Observe(circuit, h[..i + 1]))] else []
    case WriteByte(_, _) => []
  }

  /** The cycles the first n stimuli of h make. */
  function CyclesUpTo(circuit: Circuit, h: seq<Stimulus>, n: nat): seq<Cycle>
    requires n <= |h|
  {
    if n == 0 then [] else CyclesUpTo(circuit, h, n - 1) + CycleAt(circuit, h, n - 1)
  }

  /** Later stimuli do not change the cycles the first n make. */
  lemma {:induction false} CyclesUpToExtend(circuit: Circuit, h: seq<Stimulus>, x: seq<Stimulus>, n: nat)
    requires n <= |h|
    ensures CyclesUpTo(circuit, h + x, n) == CyclesUpTo(circuit, h, n)
  {
    if n > 0 {
      CyclesUpToExtend(circuit, h, x, n - 1);
      assert (h + x)[..n] == h[..n];
    }
  }

  /** A RAM poke makes no cycle. */
  lemma PokeMakesNoCycle(circuit: Circuit, h: seq<Stimulus>, a: Addr, v: Byte)
    ensures CyclesOf(circuit, h + [WriteByte(a, v)]) == CyclesOf(circuit, h)
  {
    CyclesUpToExtend(circuit, h, [WriteByte(a, v)], |h|);
  }

  /** A low-phase then a high-phase evaluation with pins p make one cycle showing p and the outputs after both. */
  lemma CycleMakesCycle(circuit: Circuit, h: seq<Stimulus>, p: Pins)
    ensures CyclesOf(circuit, h + [Eval(false, p)] + [Eval(true, p)])
         == CyclesOf(circuit, h) + [Cycle(p, circuit(h + [Eval(false, p)] + [Eval(true, p)]))]
  {
    var h2 := h + [Eval(false, p)] + [Eval(true, p)];
    CyclesUpToExtend(circuit, h, [Eval(false, p)] + [Eval(true, p)], |h|);
    assert h2 == h + ([Eval(false, p)] + [Eval(true, p)]);
    assert CycleAt(circuit, h2, |h|) == [];
    assert h2[..|h2|] == h2;
    assert CycleAt(circuit, h2, |h| + 1) == [Cycle(p, circuit(h2))];
    assert CyclesUpTo(circuit, h2, |h| + 1) == CyclesUpTo(circuit, h2, |h|) + CycleAt(circuit, h2, |h|);
    assert CyclesUpTo(circuit, h2, |h| + 2) == CyclesUpTo(circuit, h2, |h| + 1) + CycleAt(circuit, h2, |h| + 1);
  }

  /** The cycles of a spin are exactly the cycles its stimuli make. */
  lemma {:induction false} SpinCyclesAreCycles(circuit: Circuit, h: seq<Stimulus>, p: Pins, n: nat)
    ensures CyclesOf(circuit, h + Spin(p, n)) == CyclesOf(circuit, h) + SpinCycles(circuit, h, p, n)
  {
    if n == 0 {
      assert h + Spin(p, 0) == h;
    } else {
      SpinCyclesAreCycles(circuit, h, p, n - 1);
      CycleMakesCycle(circuit, h + Spin(p, n - 1), p);
      assert h + Spin(p, n) == h + Spin(p, n - 1) + [Eval(false, p)] + [Eval(true, p)];
    }
  }

  /** The outputs seen after j more cycles spun from history h with pins p, o being those seen before. */
  function After(circuit: Circuit, o: Outputs, h: seq<Stimulus>, p: Pins, j: nat): Outputs
  {
    if j == 0 then o else circuit(h + Spin(p, j))
  }

  /** The two handshake outputs of the debug unit the bench polls. */
  datatype Line = Gnt | Rvalid

  /** Whether line l is high in outputs o. */
  predicate Raised(o: Outputs, l: Line)
  {
    match l
    case Gnt => o.debugGnt
    case Rvalid => o.debugRvalid
  }

  /** Line l stayed low in the outputs seen after each j, lo <= j < hi, cycles spun from h with pins p. */
  predicate LowBetween(circuit: Circuit, o: Outputs, h: seq<Stimulus>, p: Pins, l: Line, lo: nat, hi: nat)
    decreases hi
  {
    hi <= lo || (LowBetween(circuit, o, h, p, l, lo, hi - 1) && !Raised(After(circuit, o, h, p, hi - 1), l))
  }

  /** LowBetween is the plain statement that no sample in [lo, hi) shows the line. */
  lemma {:induction false} LowBetweenAll(circuit: Circuit, o: Outputs, h: seq<Stimulus>, p: Pins, l: Line, lo: nat, hi: nat)
    ensures LowBetween(circuit, o, h, p, l, lo, hi) <==> forall j :: lo <= j < hi ==> !Raised(After(circuit, o, h, p, j), l)
    decreases hi
  {
    if lo < hi {
      LowBetweenAll(circuit, o, h, p, l, lo, hi - 1);
    }
  }

  /** Every cycle of t passed every check against the rules. */
  predicate AllChecksPass(rules: seq<Rule>, t: seq<Cycle>)
  {
    forall c :: 0 <= c < |t| ==> SnapshotOk(rules, t[c].out.probe)
  }

  /** The diagnostic lines of a run: every cycle's check lines, cycle after cycle. */
  function Log(rules: seq<Rule>, t: seq<Cycle>): seq<string>
  {
    if t == [] then [] else Log(rules, t[..|t| - 1]) + Diagnostics(rules, t[|t| - 1].out.probe)
  }

  /** The process exit status for a verdict: `!passed` as an int. */
  function ExitStatus(passed: bool): (code: int)
    ensures code == 0 <==> passed
    ensures code == 0 || code == 1
  {
    if passed then 0 else 1
  }

  /** A run printed nothing exactly when every check of every cycle passed. */
  lemma {:induction false} LogEmptyIff(rules: seq<Rule>, t: seq<Cycle>)
    ensures Log(rules, t) == [] <==> AllChecksPass(rules, t)
  {
    if t != [] {
      var n := |t| - 1;
      LogEmptyIff(rules, t[..n]);
      DiagnosticsEmptyIff(rules, t[n].out.probe);
      VerdictStep(rules, t[..n], t[n]);
      assert t[..n] + [t[n]] == t;
    }
  }

  /** One failed check on any cycle makes the run fail with exit status 1 and print something. */
  lemma FailedCycleFailsRun(rules: seq<Rule>, t: seq<Cycle>, c: nat)
    requires c < |t| && !SnapshotOk(rules, t[c].out.probe)
    ensures !AllChecksPass(rules, t) && ExitStatus(AllChecksPass(rules, t)) == 1
    ensures Log(rules, t) != []
  {
    LogEmptyIff(rules, t);
  }

  /** A later cycle never restores a verdict an earlier one lost. */
  lemma VerdictMonotone(rules: seq<Rule>, t: seq<Cycle>, u: seq<Cycle>)
    ensures AllChecksPass(rules, t + u) ==> AllChecksPass(rules, t)
  {
    if AllChecksPass(rules, t + u) {
      forall c | 0 <= c < |t| ensures SnapshotOk(rules, t[c].out.probe) {
        assert (t + u)[c] == t[c];
      }
    }
  }

  /** The verdict after one more cycle is the earlier verdict and that cycle's. */
  lemma VerdictStep(rules: seq<Rule>, t: seq<Cycle>, c: Cycle)
    ensures AllChecksPass(rules, t + [c]) == (AllChecksPass(rules, t) && SnapshotOk(rules, c.out.probe))
  {
    assert (t + [c])[|t|] == c;
    assert forall k :: 0 <= k < |t| ==> (t + [c])[k] == t[k];
  }

  /** The log of one more cycle is the earlier log followed by that cycle's lines. */
  lemma LogStep(rules: seq<Rule>, t: seq<Cycle>, c: Cycle)
    ensures Log(rules, t + [c]) == Log(rules, t) + Diagnostics(rules, c.out.probe)
  {
    assert (t + [c])[..|t|] == t;
  }

  /** Checking one more cycle keeps the verdict and the log in step with the trace. */
  lemma CheckedCycle(rules: seq<Rule>, t: seq<Cycle>, c: Cycle, passed0: bool, log0: seq<string>, passed: bool, log: seq<string>)
    requires passed0 == AllChecksPass(rules, t) && log0 == Log(rules, t)
    requires passed == (passed0 && SnapshotOk(rules, c.out.probe))
    requires log == log0 + Diagnostics(rules, c.out.probe)
    ensures passed == AllChecksPass(rules, t + [c])
    ensures log == Log(rules, t + [c])
  {
    VerdictStep(rules, t, c);
    LogStep(rules, t, c);
  }

  /** The debug pins of a pending access to addr: a write drives val on the write-data bus. */
  predicate Requesting(p: Pins, addr: bv32, val: bv32, we: bool)
  {
    p.debugReq && p.debugAddr == addr && p.debugWe == we && (we ==> p.debugWdata == val)
  }

  /** The pins that request an access: only the debug request, address, write-enable and, for a write, data change. */
  function RequestPins(p: Pins, addr: bv32, val: bv32, we: bool): (q: Pins)
    ensures Requesting(q, addr, val, we)
    ensures q.rstn == p.rstn && q.irq == p.irq && q.fetchEnable == p.fetchEnable
    ensures !we ==> q.debugWdata == p.debugWdata
  {
    p.(debugReq := true, debugAddr := addr, debugWe := we, debugWdata := if we then val else p.debugWdata)
  }

  /** The pins once a granted request is dropped: only the request line falls. */
  function ReleasePins(q: Pins): (r: Pins)
    ensures !r.debugReq
    ensures r.rstn == q.rstn && r.irq == q.irq && r.fetchEnable == q.fetchEnable
    ensures r.debugAddr == q.debugAddr && r.debugWe == q.debugWe && r.debugWdata == q.debugWdata
  {
    q.(debugReq := false)
  }

  /** Every cycle a spin appends to a trace t shows the pins of the spin. */
  lemma SpinCyclesPins(circuit: Circuit, t: seq<Cycle>, h: seq<Stimulus>, p: Pins, n: nat)
    ensures forall c :: |t| <= c < |t| + n ==> (t + SpinCycles(circuit, h, p, n))[c].pins == p
  {
    forall c | |t| <= c < |t| + n ensures (t + SpinCycles(circuit, h, p, n))[c].pins == p {
      SpinCyclesAt(circuit, h, p, n, c - |t|);
    }
  }

  /**
   * The cycles of an access to addr from pins p, granted after g cycles and
   * answered k cycles later: the first g show the request raised for that
   * access, the k after it show the same access with the request dropped,
   * and reset, interrupt and fetch-enable stay as in p throughout.
   */
  lemma HandshakePins(circuit: Circuit, t: seq<Cycle>, h: seq<Stimulus>, p: Pins, addr: bv32, val: bv32, we: bool, g: nat, k: nat)
    ensures var q := RequestPins(p, addr, val, we);
      var u := t + SpinCycles(circuit, h, q, g) + SpinCycles(circuit, h + Spin(q, g), ReleasePins(q), k);
      && |u| == |t| + g + k
      && (forall c :: |t| <= c < |t| + g ==> Requesting(u[c].pins, addr, val, we))
      && (forall c :: |t| + g <= c < |u| ==>
            !u[c].pins.debugReq && u[c].pins.debugAddr == addr && u[c].pins.debugWe == we)
      && (forall c :: |t| <= c < |u| ==>
            u[c].pins.rstn == p.rstn && u[c].pins.irq == p.irq && u[c].pins.fetchEnable == p.fetchEnable)
  {
    var q := RequestPins(p, addr, val, we);
    var u := t + SpinCycles(circuit, h, q, g) + SpinCycles(circuit, h + Spin(q, g), ReleasePins(q), k);
    forall c | |t| <= c < |t| + g ensures u[c].pins == q {
      SpinCyclesAt(circuit, h, q, g, c - |t|);
    }
    forall c | |t| + g <= c < |u| ensures u[c].pins == ReleasePins(q) {
      SpinCyclesAt(circuit, h + Spin(q, g), ReleasePins(q), k, c - |t| - g);
    }
  }

  /** The four RAM pokes that store word w at a, least significant byte first, at consecutive addresses. */
  function WordPokes(a: Addr, w: bv32): (s: seq<Stimulus>)
    ensures |s| == 4
  {
    [WriteByte(AddrAdd(a, 0), LowByte(w >> 0)), WriteByte(AddrAdd(a, 1), LowByte(w >> 8)),
     WriteByte(AddrAdd(a, 2), LowByte(w >> 16)), WriteByte(AddrAdd(a, 3), LowByte(w >> 24))]
  }

  /** The pokes that store the words of ws one after another at consecutive word addresses from base. */
  function ImagePokes(base: Addr, ws: seq<bv32>): (s: seq<Stimulus>)
    ensures |s| == 4 * |ws|
  {
    if ws == [] then []
    else
      var n := |ws| - 1;
      ImagePokes(base, ws[..n]) + WordPokes(AddrAdd(base, 4 * n), ws[n])
  }

  /** The pokes of the first i + 1 words are those of the first i, then those of word i at base + 4i. */
  lemma ImagePokesNext(base: Addr, ws: seq<bv32>, i: nat)
    requires i < |ws|
    ensures ImagePokes(base, ws[..i + 1]) == ImagePokes(base, ws[..i]) + WordPokes(AddrAdd(base, 4 * i), ws[i])
  {
    assert ws[..i + 1][..i] == ws[..i];
  }

  /** The halt flag of a debug control word is set. */
  predicate Halted(ctrl: bv32)
  {
    ctrl & DBG_CTRL_HALT != 0
  }

  /** A control word asking to halt: the halt flag set, every other flag kept. */
  function SetHalt(ctrl: bv32): (r: bv32)
    ensures Halted(r)
    ensures r & !DBG_CTRL_HALT == ctrl & !DBG_CTRL_HALT
  {
    ctrl | DBG_CTRL_HALT
  }

  /** A control word asking to resume: the halt flag clear, every other flag kept. */
  function ClearHalt(ctrl: bv32): (r: bv32)
    ensures !Halted(r)
    ensures r & !DBG_CTRL_HALT == ctrl & !DBG_CTRL_HALT
  {
    ctrl & !DBG_CTRL_HALT
  }

  /**
   * The bench's state: the circuit it drives, the pins it last set, every
   * stimulus so far, the two counters, the verdict and the diagnostic lines
   * it has printed.  `trace` records every clock cycle and is what the
   * invariant relates the verdict to.
   */
  class Testbench {
    const circuit: Circuit
    const rules: seq<Rule>
    var pins: Pins
    var outputs: Outputs
    var history: seq<Stimulus>
    var ram: Ram
    var cpuTime: nat
    var mCycleCnt: nat
    var passed: bool
    var log: seq<string>
    ghost var trace: seq<Cycle>

    /**
     * Time advances two ticks per cycle, every cycle was checked once, the
     * verdict holds exactly when every check passed and the log is every
     * check's diagnostics in order.
     */
    ghost predicate Valid()
      reads this`cpuTime, this`mCycleCnt, this`passed, this`log, this`trace, this`outputs
    {
      && cpuTime == 2 * mCycleCnt
      && |trace| == mCycleCnt
      && passed == AllChecksPass(rules, trace)
      && log == Log(rules, trace)
      && (|trace| > 0 ==> trace[|trace| - 1].out == outputs)
    }

    /** The cycles checked are exactly the cycles the stimuli so far make. */
    ghost predicate Faithful()
      reads this`trace, this`history
    {
      trace == CyclesOf(circuit, history)
    }

    /** A new bench checking the given rules: no cycle yet, verdict true, pins low. */
    constructor (circuit: Circuit, rules: seq<Rule>)
      ensures Valid()
      ensures this.circuit == circuit && this.rules == rules
      ensures pins == QUIET_PINS && outputs == circuit([]) && history == [] && ram == map[]
      ensures trace == [] && passed && log == []
      ensures Faithful()
    {
      this.circuit := circuit;
      this.rules := rules;
      pins := QUIET_PINS;
      outputs := circuit([]);
      history := [];
      ram := map[];
      cpuTime := 0;
      mCycleCnt := 0;
      passed := true;
      log := [];
      trace := [];
    }

    /** Drive the clock to level, evaluate the circuit and advance time by one tick. */
    method EvalAt(level: bool)
      modifies this`history, this`outputs, this`cpuTime
      ensures history == old(history) + [Stimulus.Eval(level, pins)]
      ensures outputs == circuit(history)
      ensures cpuTime == old(cpuTime) + 1
    {
      history := history + [Stimulus.Eval(level, pins)];
      outputs := circuit(history);
      cpuTime := cpuTime + 1;
    }

    /**
     * Check the decoder's probe values of the current cycle: the init check,
     * then every rule in table order.  A failed check prints its line and
     * clears the verdict.
     */
    method CheckProperties()
      modifies this`passed, this`log
      ensures passed == (old(passed) && SnapshotOk(rules, outputs.probe))
      ensures log == old(log) + Diagnostics(rules, outputs.probe)
    {
      var s := outputs.probe;
      var initLines := [];
      if s.encoded == INIT_ENCODING && s.init == 0 {
        initLines := [INIT_MNEMONIC];
        passed := false;
      }
      var ok, ruleLines := CheckRules(rules, s);
      if !ok {
        passed := false;
      }
      log := log + (initLines + ruleLines);
    }

    /** The end of a cycle whose two phases have been evaluated: count it and check it. */
    method EndCycle()
      requires cpuTime == 2 * mCycleCnt + 2 && |trace| == mCycleCnt
      requires passed == AllChecksPass(rules, trace) && log == Log(rules, trace)
      modifies this`mCycleCnt, this`passed, this`log, this`trace
      ensures Valid()
      ensures mCycleCnt == old(mCycleCnt) + 1 && trace == old(trace) + [Cycle(pins, outputs)]
    {
      mCycleCnt := mCycleCnt + 1;
      ghost var t, passed0, log0 := trace, passed, log;
      trace := trace + [Cycle(pins, outputs)];
      CheckProperties();
      CheckedCycle(rules, t, Cycle(pins, outputs), passed0, log0, passed, log);
    }

    /**
     * One clock cycle: a low-phase evaluation and a high-phase evaluation,
     * one tick of time after each, then the cycle is counted and checked.
     */
    method SpinOnce()
      requires Valid()
      modifies this`history, this`outputs, this`cpuTime, this`mCycleCnt, this`passed, this`log, this`trace
      ensures Valid()
      ensures cpuTime == old(cpuTime) + 2 && mCycleCnt == old(mCycleCnt) + 1
      ensures history == old(history) + [Stimulus.Eval(false, pins)] + [Stimulus.Eval(true, pins)]
      ensures outputs == circuit(history)
      ensures trace == old(trace) + [Cycle(pins, outputs)]
    {
      EvalAt(false);
      EvalAt(true);
      EndCycle();
    }

    /** Run n clock cycles, checking the decoder once after each rising edge. */
    method ClockSpin(n: nat)
      requires Valid()
      modifies this`history, this`outputs, this`cpuTime, this`mCycleCnt, this`passed, this`log, this`trace
      ensures Valid()
      ensures cpuTime == old(cpuTime) + 2 * n && mCycleCnt == old(mCycleCnt) + n
      ensures history == old(history) + Spin(pins, n)
      ensures trace == old(trace) + SpinCycles(circuit, old(history), pins, n)
      ensures n > 0 ==> outputs == circuit(history)
      ensures n == 0 ==> outputs == old(outputs)
    {
      ghost var c0, m0, h0, t0, o0, p := cpuTime, mCycleCnt, history, trace, outputs, pins;
      var i := 0;
      while i < n
        invariant 0 <= i <= n
        invariant Valid() && pins == p
        invariant cpuTime == c0 + 2 * i && mCycleCnt == m0 + i
        invariant history == h0 + Spin(p, i)
        invariant trace == t0 + SpinCycles(circuit, h0, p, i)
        invariant i > 0 ==> outputs == circuit(history)
        invariant i == 0 ==> outputs == o0
      {
        SpinOnce();
        SpinAdvance(circuit, h0, p, t0, i, history, trace);
        i := i + 1;
      }
    }

    /**
     * Spin cycles until the debug unit grants the pending request: at least
     * one cycle, then one more for as long as the grant is low, giving up
     * once budget further cycles have passed without it.
     */
    method AwaitGrant(budget: nat) returns (granted: bool, ghost g: nat)
      requires Valid()
      modifies this`history, this`outputs, this`cpuTime, this`mCycleCnt, this`passed, this`log, this`trace
      ensures Valid()
      ensures 1 <= g <= budget + 1
      ensures history == old(history) + Spin(pins, g)
      ensures trace == old(trace) + SpinCycles(circuit, old(history), pins, g)
      ensures outputs == After(circuit, old(outputs), old(history), pins, g)
      ensures forall j :: 1 <= j < g ==> !Raised(After(circuit, old(outputs), old(history), pins, j), Gnt)
      ensures granted == outputs.debugGnt
      ensures !granted ==> g == budget + 1
    {
      ghost var o0, h0, t0, p := outputs, history, trace, pins;
      ClockSpin(1);
      var spun := 1;
      while !outputs.debugGnt && spun <= budget
        invariant 1 <= spun <= budget + 1
        invariant Valid() && pins == p
        invariant history == h0 + Spin(p, spun)
        invariant trace == t0 + SpinCycles(circuit, h0, p, spun)
        invariant outputs == After(circuit, o0, h0, p, spun)
        invariant LowBetween(circuit, o0, h0, p, Gnt, 1, spun)
      {
        SpinMore(circuit, h0, p, t0, spun);
        ClockSpin(1);
        spun := spun + 1;
      }
      LowBetweenAll(circuit, o0, h0, p, Gnt, 1, spun);
      granted, g := outputs.debugGnt, spun;
    }

    /**
     * Spin cycles until the debug unit signals valid read data, sampling the
     * current outputs first (the data may come with the grant), giving up
     * once budget cycles have passed without it.
     */
    method AwaitReadData(budget: nat) returns (valid: bool, ghost k: nat)
      requires Valid()
      modifies this`history, this`outputs, this`cpuTime, this`mCycleCnt, this`passed, this`log, this`trace
      ensures Valid()
      ensures k <= budget
      ensures history == old(history) + Spin(pins, k)
      ensures trace == old(trace) + SpinCycles(circuit, old(history), pins, k)
      ensures outputs == After(circuit, old(outputs), old(history), pins, k)
      ensures forall j :: 0 <= j < k ==> !Raised(After(circuit, old(outputs), old(history), pins, j), Rvalid)
      ensures valid == outputs.debugRvalid
      ensures !valid ==> k == budget
    {
      ghost var o0, h0, t0, p := outputs, history, trace, pins;
      var spun := 0;
      while !outputs.debugRvalid && spun < budget
        invariant spun <= budget
        invariant Valid() && pins == p
        invariant history == h0 + Spin(p, spun)
        invariant trace == t0 + SpinCycles(circuit, h0, p, spun)
        invariant outputs == After(circuit, o0, h0, p, spun)
        invariant LowBetween(circuit, o0, h0, p, Rvalid, 0, spun)
      {
        SpinMore(circuit, h0, p, t0, spun);
        ClockSpin(1);
        spun := spun + 1;
      }
      LowBetweenAll(circuit, o0, h0, p, Rvalid, 0, spun);
      valid, k := outputs.debugRvalid, spun;
    }

    /**
     * The request phase of a debug access: raise the request with the
     * address, the write-enable and, for a write, the data; spin at least
     * one cycle and then until the grant, giving up after budget further
     * cycles; once granted, drop the request.
     */
    method Request(addr: bv32, val: bv32, we: bool, budget: nat) returns (granted: bool, ghost q: Pins, ghost g: nat)
      requires Valid()
      modifies this`pins, this`history, this`outputs, this`cpuTime, this`mCycleCnt, this`passed, this`log, this`trace
      ensures Valid()
      ensures q == RequestPins(old(pins), addr, val, we)
      ensures 1 <= g <= budget + 1
      ensures history == old(history) + Spin(q, g)
      ensures trace == old(trace) + SpinCycles(circuit, old(history), q, g)
      ensures outputs == After(circuit, old(outputs), old(history), q, g)
      ensures forall j :: 1 <= j < g ==> !Raised(After(circuit, old(outputs), old(history), q, j), Gnt)
      ensures granted == outputs.debugGnt
      ensures granted ==> pins == ReleasePins(q)
      ensures !granted ==> pins == q && g == budget + 1
    {
      pins := RequestPins(pins, addr, val, we);
      q := pins;
      granted, g := AwaitGrant(budget);
      if granted {
        pins := ReleasePins(pins);
      }
    }

    /**
     * One debug register access: the request phase, then, for a read, spin
     * until the read data is valid (it may come with the grant) and return
     * it.  A write completes on the grant.  Each poll gives up after budget
     * cycles without an answer.
     */
    method DebugAccess(addr: bv32, val: bv32, we: bool, budget: nat) returns (r: DebugResult, ghost q: Pins, ghost g: nat, ghost k: nat)
      requires Valid()
      modifies this`pins, this`history, this`outputs, this`cpuTime, this`mCycleCnt, this`passed, this`log, this`trace
      ensures Valid()
      ensures q == RequestPins(old(pins), addr, val, we)
      ensures 1 <= g <= budget + 1 && k <= budget
      ensures history == old(history) + Spin(q, g) + Spin(ReleasePins(q), k)
      ensures trace == old(trace) + SpinCycles(circuit, old(history), q, g) + SpinCycles(circuit, old(history) + Spin(q, g), ReleasePins(q), k)
      ensures forall j :: 1 <= j < g ==> !Raised(After(circuit, old(outputs), old(history), q, j), Gnt)
      ensures !Raised(After(circuit, old(outputs), old(history), q, g), Gnt) ==> r == Stalled && g == budget + 1 && k == 0 && pins == q
      ensures Raised(After(circuit, old(outputs), old(history), q, g), Gnt) ==> pins == ReleasePins(q)
      ensures Raised(After(circuit, old(outputs), old(history), q, g), Gnt) && we ==> r == Completed(val) && k == 0 && outputs.debugGnt
      ensures Raised(After(circuit, old(outputs), old(history), q, g), Gnt) && !we ==>
        && (forall j :: 0 <= j < k ==> !Raised(After(circuit, After(circuit, old(outputs), old(history), q, g), old(history) + Spin(q, g), ReleasePins(q), j), Rvalid))
        && (r.Completed? <==> outputs.debugRvalid)
        && (r.Completed? ==> r.value == outputs.debugRdata)
        && (r == Stalled ==> k == budget)
    {
      ghost var h0, t0 := history, trace;
      var granted;
      granted, q, g := Request(addr, val, we, budget);
      if !granted || we {
        r, k := if granted then Completed(val) else Stalled, 0;
        assert history == h0 + Spin(q, g) + Spin(ReleasePins(q), 0);
        assert trace == t0 + SpinCycles(circuit, h0, q, g) + SpinCycles(circuit, h0 + Spin(q, g), ReleasePins(q), 0);
      } else {
        var valid;
        valid, k := AwaitReadData(budget);
        r := if valid then Completed(outputs.debugRdata) else Stalled;
      }
    }

    /** Read a debug register: on completion, the value is the read data of the cycle that showed it valid. */
    method DebugRead(addr: bv32, budget: nat) returns (r: DebugResult)
      requires Valid() && Faithful()
      modifies this`pins, this`history, this`outputs, this`cpuTime, this`mCycleCnt, this`passed, this`log, this`trace
      ensures Valid() && Faithful()
      ensures old(trace) <= trace && old(history) <= history
      ensures |trace| > |old(trace)|
      ensures pins.rstn == old(pins.rstn) && pins.irq == old(pins.irq) && pins.fetchEnable == old(pins.fetchEnable)
      ensures r.Completed? ==> outputs.debugRvalid && r.value == outputs.debugRdata
      ensures r.Completed? ==> !pins.debugReq && pins.debugAddr == addr && !pins.debugWe
    {
      ghost var h0 := history;
      ghost var q, g, k;
      r, q, g, k := DebugAccess(addr, 0, false, budget);
      SpinCyclesAreCycles(circuit, h0, q, g);
      SpinCyclesAreCycles(circuit, h0 + Spin(q, g), ReleasePins(q), k);
    }

    /** Write a debug register: on completion, the grant was seen with val on the write-data bus. */
    method DebugWrite(addr: bv32, val: bv32, budget: nat) returns (r: DebugResult)
      requires Valid() && Faithful()
      modifies this`pins, this`history, this`outputs, this`cpuTime, this`mCycleCnt, this`passed, this`log, this`trace
      ensures Valid() && Faithful()
      ensures old(trace) <= trace && old(history) <= history
      ensures |trace| > |old(trace)|
      ensures pins.rstn == old(pins.rstn) && pins.irq == old(pins.irq) && pins.fetchEnable == old(pins.fetchEnable)
      ensures r.Completed? ==> outputs.debugGnt && r.value == val
      ensures r.Completed? ==> !pins.debugReq && pins.debugAddr == addr && pins.debugWe && pins.debugWdata == val
    {
      ghost var h0 := history;
      ghost var q, g, k;
      r, q, g, k := DebugAccess(addr, val, true, budget);
      SpinCyclesAreCycles(circuit, h0, q, g);
      SpinCyclesAreCycles(circuit, h0 + Spin(q, g), ReleasePins(q), k);
    }

    /** Spin one cycle, then read the control register. */
    method SpinAndReadCtrl(budget: nat) returns (r: DebugResult)
      requires Valid() && Faithful()
      modifies this`pins, this`history, this`outputs, this`cpuTime, this`mCycleCnt, this`passed, this`log, this`trace
      ensures Valid() && Faithful()
      ensures old(trace) <= trace && old(history) <= history
      ensures |trace| > |old(trace)|
      ensures pins.rstn == old(pins.rstn) && pins.irq == old(pins.irq) && pins.fetchEnable == old(pins.fetchEnable)
      ensures r.Completed? ==> outputs.debugRvalid && r.value == outputs.debugRdata
      ensures r.Completed? ==> !pins.debugReq && pins.debugAddr == DBG_CTRL && !pins.debugWe
      ensures |trace| >= |old(trace)| + 2 && trace[|old(trace)|].pins == old(pins)
    {
      ghost var t0, h0 := trace, history;
      ClockSpin(1);
      SpinCyclesAreCycles(circuit, h0, pins, 1);
      SpinCyclesAt(circuit, h0, pins, 1, 0);
      ghost var t1 := trace;
      r := DebugRead(DBG_CTRL, budget);
      assert trace[|t0|] == t1[|t0|];
    }

    /**
     * Read the control register until its halt flag shows, spinning one
     * cycle between reads; give up when a read stalls or after budget
     * further reads without the flag.
     */
    method WaitForDebugStall(budget: nat) returns (r: DebugResult)
      requires Valid() && Faithful()
      modifies this`pins, this`history, this`outputs, this`cpuTime, this`mCycleCnt, this`passed, this`log, this`trace
      ensures Valid() && Faithful()
      ensures old(trace) <= trace && old(history) <= history
      ensures |trace| > |old(trace)|
      ensures pins.rstn == old(pins.rstn) && pins.irq == old(pins.irq) && pins.fetchEnable == old(pins.fetchEnable)
      ensures r.Completed? ==> Halted(r.value) && outputs.debugRvalid && outputs.debugRdata == r.value
      ensures r.Completed? ==> !pins.debugReq && pins.debugAddr == DBG_CTRL && !pins.debugWe
    {
      ghost var t0, h0, p0 := trace, history, pins;
      r := DebugRead(DBG_CTRL, budget);
      var polls := 0;
      while r.Completed? && !Halted(r.value) && polls < budget
        invariant Valid() && Faithful() && |trace| > |t0|
        invariant t0 <= trace && h0 <= history
        invariant pins.rstn == p0.rstn && pins.irq == p0.irq && pins.fetchEnable == p0.fetchEnable
        invariant r.Completed? ==> outputs.debugRvalid && r.value == outputs.debugRdata
        invariant r.Completed? ==> !pins.debugReq && pins.debugAddr == DBG_CTRL && !pins.debugWe
        decreases budget - polls
      {
        r := SpinAndReadCtrl(budget);
        polls := polls + 1;
      }
      if r.Completed? && !Halted(r.value) {
        r := Stalled;
      }
    }

    /** Poke one byte into the RAM. */
    method PokeByte(a: Addr, v: Byte)
      modifies this`history, this`ram
      ensures CyclesOf(circuit, history) == CyclesOf(circuit, old(history))
      ensures history == old(history) + [WriteByte(a, v)]
      ensures ram == old(ram)[a := v]
    {
      PokeMakesNoCycle(circuit, history, a, v);
      history := history + [WriteByte(a, v)];
      ram := ram[a := v];
    }

    /** Store a word at addr as four byte pokes, least significant byte first. */
    method WriteInstr(addr: Addr, instr: bv32)
      modifies this`history, this`ram
      ensures CyclesOf(circuit, history) == CyclesOf(circuit, old(history))
      ensures history == old(history) + WordPokes(addr, instr)
      ensures ram == StoreWord(old(ram), addr, instr)
    {
      ghost var h0 := history;
      PokeByte(AddrAdd(addr, 0), LowByte(instr >> 0));
      PokeByte(AddrAdd(addr, 1), LowByte(instr >> 8));
      PokeByte(AddrAdd(addr, 2), LowByte(instr >> 16));
      PokeByte(AddrAdd(addr, 3), LowByte(instr >> 24));
      assert history == h0 + WordPokes(addr, instr);
    }

    /** Store the program image word by word at consecutive word addresses from PROGRAM_BASE. */
    method LoadProgram()
      modifies this`history, this`ram
      ensures CyclesOf(circuit, history) == CyclesOf(circuit, old(history))
      ensures history == old(history) + ImagePokes(PROGRAM_BASE, PROGRAM)
      ensures ram == StoreWords(old(ram), PROGRAM_BASE, PROGRAM)
    {
      ghost var h0, m0 := history, ram;
      var addr := PROGRAM_BASE;
      var i := 0;
      while i < |PROGRAM|
        invariant i <= |PROGRAM| && addr == PROGRAM_BASE + 4 * i
        invariant CyclesOf(circuit, history) == CyclesOf(circuit, h0)
        invariant history == h0 + ImagePokes(PROGRAM_BASE, PROGRAM[..i])
        invariant ram == StoreWords(m0, PROGRAM_BASE, PROGRAM[..i])
      {
        WriteInstr(addr, PROGRAM[i]);
        StoreWordsNext(m0, PROGRAM_BASE, PROGRAM, i);
        ImagePokesNext(PROGRAM_BASE, PROGRAM, i);
        addr := AddrAdd(addr, 4);
        i := i + 1;
      }
      assert PROGRAM[..i] == PROGRAM;
    }

    /** Hold the core in reset for five cycles with every other input low, then release the reset. */
    method Reset()
      requires Valid() && Faithful()
      modifies this`pins, this`history, this`outputs, this`cpuTime, this`mCycleCnt, this`passed, this`log, this`trace
      ensures Valid() && Faithful()
      ensures old(trace) <= trace && old(history) <= history
      ensures pins.rstn && !pins.irq && !pins.fetchEnable && !pins.debugReq
      ensures |trace| == |old(trace)| + 5
      ensures forall c :: |old(trace)| <= c < |trace| ==> !trace[c].pins.rstn && !trace[c].pins.fetchEnable && !trace[c].pins.debugReq
    {
      ghost var t0, h0 := trace, history;
      pins := pins.(irq := false, debugReq := false, fetchEnable := false, rstn := false);
      ghost var p := pins;
      ClockSpin(5);
      SpinCyclesPins(circuit, t0, h0, p, 5);
      SpinCyclesAreCycles(circuit, h0, p, 5);
      pins := pins.(rstn := true);
    }

    /** Read the control register and write it back with the halt flag set. */
    method SetHaltFlag(budget: nat) returns (ok: bool, ghost ctrl: bv32, ghost c: nat)
      requires Valid() && Faithful()
      modifies this`pins, this`history, this`outputs, this`cpuTime, this`mCycleCnt, this`passed, this`log, this`trace
      ensures Valid() && Faithful()
      ensures old(trace) <= trace && old(history) <= history
      ensures pins.rstn == old(pins.rstn) && pins.irq == old(pins.irq) && pins.fetchEnable == old(pins.fetchEnable)
      ensures ok ==> !pins.debugReq && pins.debugAddr == DBG_CTRL && pins.debugWe && Halted(pins.debugWdata)
      ensures ok ==> |old(trace)| <= c < |trace| && trace[c].out.debugRvalid && trace[c].out.debugRdata == ctrl
      ensures ok ==> pins.debugWdata == SetHalt(ctrl)
    {
      ok, ctrl, c := false, 0, 0;
      var read := DebugRead(DBG_CTRL, budget);
      if read.Completed? {
        ctrl, c := read.value, |trace| - 1;
        ghost var t1 := trace;
        var done := DebugWrite(DBG_CTRL, SetHalt(read.value), budget);
        ok := done.Completed?;
        assert trace[c] == t1[c];
      }
    }

    /** Read the control register and write it back with the halt flag clear. */
    method ClearHaltFlag(budget: nat) returns (ok: bool, ghost ctrl: bv32, ghost c: nat)
      requires Valid() && Faithful()
      modifies this`pins, this`history, this`outputs, this`cpuTime, this`mCycleCnt, this`passed, this`log, this`trace
      ensures Valid() && Faithful()
      ensures old(trace) <= trace && old(history) <= history
      ensures pins.rstn == old(pins.rstn) && pins.irq == old(pins.irq) && pins.fetchEnable == old(pins.fetchEnable)
      ensures ok ==> !pins.debugReq && pins.debugAddr == DBG_CTRL && pins.debugWe && !Halted(pins.debugWdata)
      ensures ok ==> |old(trace)| <= c < |trace| && trace[c].out.debugRvalid && trace[c].out.debugRdata == ctrl
      ensures ok ==> pins.debugWdata == ClearHalt(ctrl)
    {
      ok, ctrl, c := false, 0, 0;
      var read := DebugRead(DBG_CTRL, budget);
      if read.Completed? {
        ctrl, c := read.value, |trace| - 1;
        ghost var t1 := trace;
        var done := DebugWrite(DBG_CTRL, ClearHalt(read.value), budget);
        ok := done.Completed?;
        assert trace[c] == t1[c];
      }
    }

    /**
     * Halt the core for setting it up: set the halt flag, spin five cycles
     * and enable traps on every exception cause.
     */
    method HaltForSetup(budget: nat) returns (ok: bool)
      requires Valid() && Faithful()
      modifies this`pins, this`history, this`outputs, this`cpuTime, this`mCycleCnt, this`passed, this`log, this`trace
      ensures Valid() && Faithful()
      ensures old(trace) <= trace && old(history) <= history
      ensures pins.rstn == old(pins.rstn) && pins.irq == old(pins.irq) && pins.fetchEnable == old(pins.fetchEnable)
      ensures ok ==> pins.debugAddr == DBG_IE && pins.debugWe && pins.debugWdata == 0xF
    {
      ghost var ctrl, c;
      ok, ctrl, c := SetHaltFlag(budget);
      if !ok { return; }
      ghost var h1 := history;
      ClockSpin(5);
      SpinCyclesAreCycles(circuit, h1, pins, 5);
      var done := DebugWrite(DBG_IE, 0xF, budget);
      ok := done.Completed?;
    }

    /** Resume the core: clear the halt flag, enable instruction fetch and run 73 cycles. */
    method Resume(budget: nat) returns (ok: bool)
      requires Valid() && Faithful()
      modifies this`pins, this`history, this`outputs, this`cpuTime, this`mCycleCnt, this`passed, this`log, this`trace
      ensures Valid() && Faithful()
      ensures old(trace) <= trace && old(history) <= history
      ensures pins.rstn == old(pins.rstn) && pins.irq == old(pins.irq)
      ensures ok ==> pins.fetchEnable && pins.debugAddr == DBG_CTRL && pins.debugWe && !Halted(pins.debugWdata)
    {
      ghost var ctrl, c;
      ok, ctrl, c := ClearHaltFlag(budget);
      if !ok { return; }
      pins := pins.(fetchEnable := true);
      ghost var h1 := history;
      ClockSpin(73);
      SpinCyclesAreCycles(circuit, h1, pins, 73);
      ok := true;
    }

    /** Halt the core again and wait until the control register shows the halt. */
    method HaltAndWait(budget: nat) returns (ok: bool)
      requires Valid() && Faithful()
      modifies this`pins, this`history, this`outputs, this`cpuTime, this`mCycleCnt, this`passed, this`log, this`trace
      ensures Valid() && Faithful()
      ensures old(trace) <= trace && old(history) <= history
      ensures pins.rstn == old(pins.rstn) && pins.irq == old(pins.irq) && pins.fetchEnable == old(pins.fetchEnable)
      ensures ok ==> outputs.debugRvalid && Halted(outputs.debugRdata) && pins.debugAddr == DBG_CTRL && !pins.debugWe
    {
      ghost var ctrl, c;
      ok, ctrl, c := SetHaltFlag(budget);
      if !ok { return; }
      var halted := WaitForDebugStall(budget);
      ok := halted.Completed?;
    }

    /**
     * The debug session of a run: halt the core and arm its traps, resume
     * it, then halt it again and wait for the halt.
     */
    method DebugSession(budget: nat) returns (ok: bool)
      requires Valid() && Faithful()
      modifies this`pins, this`history, this`outputs, this`cpuTime, this`mCycleCnt, this`passed, this`log, this`trace
      ensures Valid() && Faithful()
      ensures old(trace) <= trace && old(history) <= history
      ensures pins.rstn == old(pins.rstn) && pins.irq == old(pins.irq)
      ensures ok ==> pins.fetchEnable && outputs.debugRvalid && Halted(outputs.debugRdata)
    {
      ok := HaltForSetup(budget);
      if !ok { return; }
      ok := Resume(budget);
      if !ok { return; }
      ok := HaltAndWait(budget);
    }
  }

  /** The first five cycles of t exist and hold the core in reset, with fetch and debug requests off. */
  ghost predicate ResetFirst(t: seq<Cycle>)
  {
    |t| >= 5 && forall c :: 0 <= c < 5 ==> !t[c].pins.rstn && !t[c].pins.fetchEnable && !t[c].pins.debugReq
  }

  /** Cycles added after a trace keep its reset cycles first. */
  lemma ResetFirstKept(t: seq<Cycle>, u: seq<Cycle>)
    requires ResetFirst(t) && t <= u
    ensures ResetFirst(u)
  {
    assert forall c :: 0 <= c < 5 ==> u[c] == t[c];
  }

  /** A new bench on the circuit: hold the core in reset for five cycles, release it and load the program. */
  method ResetAndLoad(circuit: Circuit) returns (tb: Testbench)
    ensures fresh(tb)
    ensures tb.Valid() && tb.Faithful() && tb.circuit == circuit && tb.rules == RULES
    ensures ResetFirst(tb.trace)
    ensures tb.ram == StoreWords(map[], PROGRAM_BASE, PROGRAM)
    ensures tb.pins.rstn && !tb.pins.irq && !tb.pins.fetchEnable && !tb.pins.debugReq
    ensures |tb.trace| == 5
  {
    tb := new Testbench(circuit, RULES);
    tb.Reset();
    tb.LoadProgram();
  }

  /**
   * The whole run: reset the core, load the program, halt it and arm the
   * exception traps, resume it for 73 cycles, halt it again and wait for
   * the halt.  The exit code is 0 exactly when every check of every cycle
   * passed, which is exactly when no diagnostic line was printed.  A poll
   * that does not end within budget cycles is a hang.
   */
  method RunTestbench(circuit: Circuit, budget: nat) returns (r: RunResult, tb: Testbench)
    ensures tb.Valid() && tb.circuit == circuit && tb.rules == RULES
    ensures tb.trace == CyclesOf(circuit, tb.history)
    ensures ResetFirst(tb.trace)
    ensures tb.ram == StoreWords(map[], PROGRAM_BASE, PROGRAM)
    ensures r.ExitCode? ==> r.code == ExitStatus(tb.passed)
    ensures r.ExitCode? ==> (r.code == 0 <==> AllChecksPass(RULES, tb.trace)) && (r.code == 0 <==> tb.log == [])
    ensures r.ExitCode? ==> tb.outputs.debugRvalid && Halted(tb.outputs.debugRdata)
    ensures r.ExitCode? ==> tb.pins.rstn && tb.pins.fetchEnable && !tb.pins.irq
  {
    tb := ResetAndLoad(circuit);
    ghost var t0 := tb.trace;
    r := Hang;
    var ok := tb.DebugSession(budget);
    ResetFirstKept(t0, tb.trace);
    if !ok { return; }
    LogEmptyIff(RULES, tb.trace);
    r := ExitCode(ExitStatus(tb.passed));
  }
}
