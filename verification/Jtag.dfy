/** Numbers as bits, least significant first. */
module Bits {

  function Pow2(n: nat): (p: nat)
    ensures p >= 1
  {
    if n == 0 then 1 else 2 * Pow2(n - 1)
  }

  function Number(b: seq<bool>): (n: nat)
    ensures n < Pow2(|b|)
  {
    if b == [] then 0 else (if b[0] then 1 else 0) + 2 * Number(b[1..])
  }

  /** The low n bits of x. */
  function Low(x: nat, n: nat): (b: seq<bool>)
    ensures |b| == n
  {
    if n == 0 then [] else [x % 2 == 1] + Low(x / 2, n - 1)
  }

  lemma {:induction false} NumberOfLow(x: nat, n: nat)
    ensures x < Pow2(n) ==> Number(Low(x, n)) == x
  {
    if n > 0 {
      NumberOfLow(x / 2, n - 1);
      assert Low(x, n)[1..] == Low(x / 2, n - 1);
    }
  }

  lemma {:induction false} NumberInjective(a: seq<bool>, b: seq<bool>)
    requires |a| == |b| && Number(a) == Number(b)
    ensures a == b
  {
    if a != [] {
      NumberInjective(a[1..], b[1..]);
      assert a == [a[0]] + a[1..] && b == [b[0]] + b[1..];
    }
  }

  lemma {:induction false} NumberAppend(a: seq<bool>, b: bool)
    ensures Number(a + [b]) == Number(a) + (if b then Pow2(|a|) else 0)
  {
    if a == [] {
      assert a + [b] == [b] && [b][1..] == [];
    } else {
      assert (a + [b])[1..] == a[1..] + [b];
      NumberAppend(a[1..], b);
    }
  }
}

/** The debug port and the memory access port behind the TAP, as section 3 of ARM's ADIv5 describes them. */
module DebugPort {
  import opened Bits

  const WORD: nat := 0x1_0000_0000
  const PAGE: nat := 4096

  /** Register numbers A[3:2]. */
  const CSW: nat := 0
  const TAR: nat := 1
  const DRW: nat := 3
  const CTRL_STAT: nat := 1
  const SELECT: nat := 2
  const RDBUFF: nat := 3

  /**
   * result is what the next scan captures. waits says for each scan to come whether it is answered with
   * WAIT; when it is used up all scans are answered OK. noise is the unspecified result of a write.
   */
  datatype Dap = Dap(
    select: nat, ctrl: nat, csw: nat, tar: nat, mem: map<nat, nat>, result: nat, noise: nat,
    waits: seq<bool>, stalled: bool)

  function Load(mem: map<nat, nat>, a: nat): (w: nat) {
    if a in mem then mem[a] else 0
  }

  /** Every register and memory word holds 32 bits. */
  ghost predicate DapOk(d: Dap) {
    && d.result < WORD && d.noise < WORD && d.csw < WORD && d.tar < WORD && d.select < WORD && d.ctrl < WORD
    && (forall a :: a in d.mem ==> d.mem[a] < WORD)
  }

  /** The word that TAR points to. */
  function WordAddress(tar: nat): (a: nat) {
    tar - tar % 4
  }

  /** CSW.Size: bytes per data access, 1, 2 or 4. */
  function Span(csw: nat): (n: nat) {
    if csw % 8 == 0 then 1 else if csw % 8 == 1 then 2 else 4
  }

  /** CSW.AddrInc is single. */
  predicate Increments(csw: nat) {
    csw / 16 % 4 == 1
  }

  /** TAR after a data access: with AddrInc single, the next address of the same 4 KB page. */
  function Increment(tar: nat, csw: nat): (r: nat) {
    if Increments(csw) then tar - tar % PAGE + (tar % PAGE + Span(csw)) % PAGE else tar
  }

  /** Byte j of a word. */
  function Byte(word: nat, j: nat): (b: nat) {
    if j == 0 then word % 0x100 else if j == 1 then word / 0x100 % 0x100
    else if j == 2 then word / 0x1_0000 % 0x100 else word / 0x100_0000
  }

  function Joined(b0: nat, b1: nat, b2: nat, b3: nat): (word: nat) {
    b0 + 0x100 * b1 + 0x1_0000 * b2 + 0x100_0000 * b3
  }

  /** Byte j of its word belongs to an access at tar. */
  predicate InLane(j: nat, tar: nat, csw: nat) {
    j / Span(csw) == tar % 4 / Span(csw)
  }

  /** The bytes of a word that an access at tar is about, in their lanes; the others are those of rest. */
  function Lanes(word: nat, rest: nat, tar: nat, csw: nat): (w: nat) {
    Joined(Byte(if InLane(0, tar, csw) then word else rest, 0), Byte(if InLane(1, tar, csw) then word else rest, 1),
           Byte(if InLane(2, tar, csw) then word else rest, 2), Byte(if InLane(3, tar, csw) then word else rest, 3))
  }

  lemma LanesFit(word: nat, rest: nat, tar: nat, csw: nat)
    requires word < WORD && rest < WORD
    ensures Lanes(word, rest, tar, csw) < WORD
  {
    hide InLane, Byte;
    ByteFits(word);
    ByteFits(rest);
  }

  lemma ByteFits(word: nat)
    requires word < WORD
    ensures Byte(word, 0) < 0x100 && Byte(word, 1) < 0x100 && Byte(word, 2) < 0x100 && Byte(word, 3) < 0x100
  {
  }

  /** A 32-bit access is about the whole word. */
  lemma AllLanes(word: nat, rest: nat, tar: nat, csw: nat)
    requires csw % 8 == 2
    ensures Lanes(word, rest, tar, csw) == word
  {
    hide Byte, Joined;
    BytesOf(word);
  }

  lemma BytesOf(word: nat)
    ensures Joined(Byte(word, 0), Byte(word, 1), Byte(word, 2), Byte(word, 3)) == word
  {
    Halved(word, 0x100);
    Halved(word, 0x1_0000);
  }

  /** Dividing by 256 once more. */
  lemma Halved(word: nat, n: nat)
    requires n == 0x100 || n == 0x1_0000
    ensures word / (0x100 * n) == word / n / 0x100
  {
    if n == 0x100 {
      assert word / 0x1_0000 == word / 0x100 / 0x100;
    } else {
      assert word / 0x100_0000 == word / 0x1_0000 / 0x100;
    }
  }

  /** APBANKSEL */
  function Bank(select: nat): (b: nat) {
    select / 16 % 16
  }

  function ApRead(d: Dap, a: nat): (r: Dap) {
    if Bank(d.select) != 0 then d.(result := 0)
    else if a == CSW then d.(result := d.csw)
    else if a == TAR then d.(result := d.tar)
    else if a == DRW then
      d.(result := Lanes(Load(d.mem, WordAddress(d.tar)), 0, d.tar, d.csw), tar := Increment(d.tar, d.csw))
    else d.(result := 0)
  }

  function ApWrite(d: Dap, a: nat, data: nat): (r: Dap) {
    var d1 := d.(result := d.noise);
    if Bank(d.select) != 0 then d1
    else if a == CSW then d1.(csw := data)
    else if a == TAR then d1.(tar := data)
    else if a == DRW then
      var x := WordAddress(d.tar);
      d1.(mem := d.mem[x := Lanes(data, Load(d.mem, x), d.tar, d.csw)], tar := Increment(d.tar, d.csw))
    else d1
  }

  function DpRead(d: Dap, a: nat): (r: Dap) {
    d.(result := if a == CTRL_STAT then d.ctrl else if a == SELECT then d.select else 0)
  }

  function DpWrite(d: Dap, a: nat, data: nat): (r: Dap) {
    var d1 := d.(result := d.noise);
    if a == CTRL_STAT then d1.(ctrl := data) else if a == SELECT then d1.(select := data) else d1
  }

  /** A transaction: a read or a write of register a of the access port or of the debug port. */
  function Execute(d: Dap, ap: bool, read: bool, a: nat, data: nat): (r: Dap) {
    if ap then if read then ApRead(d, a) else ApWrite(d, a, data)
    else if read then DpRead(d, a) else DpWrite(d, a, data)
  }

  lemma ExecuteOk(d: Dap, ap: bool, read: bool, a: nat, data: nat)
    requires DapOk(d) && data < WORD
    ensures DapOk(Execute(d, ap, read, a, data))
  {
    hide Lanes;
    IncrementFits(d.tar, d.csw);
    LanesFit(Load(d.mem, WordAddress(d.tar)), 0, d.tar, d.csw);
    LanesFit(data, Load(d.mem, WordAddress(d.tar)), d.tar, d.csw);
  }

  lemma IncrementFits(tar: nat, csw: nat)
    requires tar < WORD
    ensures Increment(tar, csw) < WORD
  {
  }

  /** What a scan captures: a three-bit acknowledgement, OK or WAIT, and 32 bits of result. */
  function Captured(d: Dap): (b: seq<bool>)
    ensures |b| == 35
  {
    if d.stalled then [true, false, false] + Low(0, 32) else [false, true, false] + Low(d.result, 32)
  }

  /** Capture-DR: the answer to this scan is decided. */
  function Answer(d: Dap): (r: Dap) {
    d.(stalled := d.waits != [] && d.waits[0], waits := if d.waits == [] then [] else d.waits[1..])
  }

  /** Update-DR: the request in the register is carried out unless the scan was answered with WAIT. */
  function Accept(d: Dap, ap: bool, reg: seq<bool>): (r: Dap) {
    if d.stalled || |reg| != 35 then d else Execute(d, ap, reg[0], Number(reg[1..3]), Number(reg[3..]))
  }
}

/** The TAP controller of clause 6 of IEEE Std 1149.1, with the chip's registers behind it. */
module TestAccessPort {
  import opened Bits
  import opened DebugPort

  datatype Tap =
    | TestLogicReset | RunTestIdle
    | SelectDR | CaptureDR | ShiftDR | Exit1DR | PauseDR | Exit2DR | UpdateDR
    | SelectIR | CaptureIR | ShiftIR | Exit1IR | PauseIR | Exit2IR | UpdateIR

  function NextTap(t: Tap, tms: bool): (r: Tap) {
    match t
    case TestLogicReset => if tms then TestLogicReset else RunTestIdle
    case RunTestIdle => if tms then SelectDR else RunTestIdle
    case SelectDR => if tms then SelectIR else CaptureDR
    case CaptureDR => if tms then Exit1DR else ShiftDR
    case ShiftDR => if tms then Exit1DR else ShiftDR
    case Exit1DR => if tms then UpdateDR else PauseDR
    case PauseDR => if tms then Exit2DR else PauseDR
    case Exit2DR => if tms then UpdateDR else ShiftDR
    case UpdateDR => if tms then SelectDR else RunTestIdle
    case SelectIR => if tms then TestLogicReset else CaptureIR
    case CaptureIR => if tms then Exit1IR else ShiftIR
    case ShiftIR => if tms then Exit1IR else ShiftIR
    case Exit1IR => if tms then UpdateIR else PauseIR
    case PauseIR => if tms then Exit2IR else PauseIR
    case Exit2IR => if tms then UpdateIR else ShiftIR
    case UpdateIR => if tms then SelectDR else RunTestIdle
  }

  const IR_DPACC: nat := 0xa
  const IR_APACC: nat := 0xb
  const IR_IDCODE: nat := 0xe

  /** reg is the shift register between TDI and TDO, its first bit being the next one out. */
  datatype Chip = Chip(tap: Tap, ir: nat, reg: seq<bool>, dap: Dap, idcode: nat)

  /** Capture-DR with the current instruction. */
  function CaptureData(c: Chip): (r: Chip) {
    if c.ir == IR_DPACC || c.ir == IR_APACC then c.(dap := Answer(c.dap), reg := Captured(Answer(c.dap)))
    else if c.ir == IR_IDCODE then c.(reg := Low(c.idcode, 32))
    else c.(reg := [false])
  }

  /** What a rising clock edge does in the state it leaves. */
  function Edge(c: Chip, tdi: bool): (r: Chip) {
    match c.tap
    case CaptureDR => CaptureData(c)
    case CaptureIR => c.(reg := [true, false, false, false])
    case ShiftDR => c.(reg := if c.reg == [] then [] else c.reg[1..] + [tdi])
    case ShiftIR => c.(reg := if c.reg == [] then [] else c.reg[1..] + [tdi])
    case _ => c
  }

  /** What the state entered does. */
  function Entry(c: Chip): (r: Chip) {
    match c.tap
    case UpdateDR =>
      if c.ir == IR_DPACC || c.ir == IR_APACC then c.(dap := Accept(c.dap, c.ir == IR_APACC, c.reg)) else c
    case UpdateIR => c.(ir := Number(c.reg))
    case TestLogicReset => c.(ir := IR_IDCODE)
    case _ => c
  }

  /** One clock pulse. */
  function Clock(c: Chip, tms: bool, tdi: bool): (r: Chip) {
    var c1 := Edge(c, tdi);
    Entry(c1.(tap := NextTap(c.tap, tms)))
  }

  function Ticks(c: Chip, tms: bool, tdi: bool, n: nat): (r: Chip)
    decreases n
  {
    if n == 0 then c else Ticks(Clock(c, tms, tdi), tms, tdi, n - 1)
  }

  /** TDO, which shows the next bit out while shifting. */
  function Tdo(c: Chip): (b: bool) {
    c.reg != [] && c.reg[0]
  }

  function TapAfter(t: Tap, tms: bool, n: nat): (r: Tap)
    decreases n
  {
    if n == 0 then t else TapAfter(NextTap(t, tms), tms, n - 1)
  }

  lemma {:induction false} TicksTap(c: Chip, tms: bool, tdi: bool, n: nat)
    ensures Ticks(c, tms, tdi, n).tap == TapAfter(c.tap, tms, n)
    decreases n
  {
    hide NextTap;
    if n > 0 {
      ClockTap(c, tms, tdi);
      TicksTap(Clock(c, tms, tdi), tms, tdi, n - 1);
    }
  }

  lemma ClockTap(c: Chip, tms: bool, tdi: bool)
    ensures Clock(c, tms, tdi).tap == NextTap(c.tap, tms)
  {
    hide NextTap;
  }

  /** Clocks with TMS high reset the TAP from every state: five are enough, and more do no harm. */
  lemma {:induction false} HighResets(t: Tap, n: nat)
    requires n >= 5
    ensures TapAfter(t, true, n) == TestLogicReset
    decreases n
  {
    var t3 := NextTap(NextTap(NextTap(t, true), true), true);
    assert TapAfter(t, true, n) == TapAfter(NextTap(t, true), true, n - 1);
    assert TapAfter(NextTap(t, true), true, n - 1) == TapAfter(NextTap(NextTap(t, true), true), true, n - 2);
    assert TapAfter(NextTap(NextTap(t, true), true), true, n - 2) == TapAfter(t3, true, n - 3);
    assert TapAfter(t3, true, n - 3) == TapAfter(NextTap(t3, true), true, n - 4);
    assert TapAfter(NextTap(t3, true), true, n - 4) == TapAfter(NextTap(NextTap(t3, true), true), true, n - 5);
    HighStays(n - 5);
  }

  lemma {:induction false} HighStays(n: nat)
    ensures TapAfter(TestLogicReset, true, n) == TestLogicReset
    decreases n
  {
    if n > 0 {
      HighStays(n - 1);
    }
  }

  /** A reset selects the instruction IDCODE. */
  lemma {:induction false} ResetSelects(c: Chip, tdi: bool, n: nat)
    requires n >= 5
    ensures Ticks(c, true, tdi, n).tap == TestLogicReset && Ticks(c, true, tdi, n).ir == IR_IDCODE
  {
    hide NextTap, Clock;
    TicksTap(c, true, tdi, n);
    HighResets(c.tap, n);
    TicksLast(c, true, tdi, n - 1);
    LastClock(Ticks(c, true, tdi, n - 1), tdi);
  }

  lemma {:induction false} TicksLast(c: Chip, tms: bool, tdi: bool, n: nat)
    ensures Ticks(c, tms, tdi, n + 1) == Clock(Ticks(c, tms, tdi, n), tms, tdi)
    decreases n
  {
    hide Clock;
    if n > 0 {
      TicksLast(Clock(c, tms, tdi), tms, tdi, n - 1);
    }
  }

  lemma LastClock(c: Chip, tdi: bool)
    requires Clock(c, true, tdi).tap == TestLogicReset
    ensures Clock(c, true, tdi).ir == IR_IDCODE
  {
  }

  // ----- the clock sequences of the driver

  /** From Run-Test/Idle to Shift-DR. */
  function ToShiftData(c: Chip): (r: Chip) {
    CaptureData(c).(tap := ShiftDR)
  }

  lemma ToShiftDataTicks(c: Chip, tdi: bool)
    requires c.tap == RunTestIdle
    ensures Ticks(Ticks(c, true, tdi, 1), false, tdi, 2) == ToShiftData(c)
  {
    hide CaptureData;
    var c1 := Clock(c, true, tdi);
    assert c1 == c.(tap := SelectDR);
    assert Ticks(c, true, tdi, 1) == c1;
    var c2 := Clock(c1, false, tdi);
    assert c2 == c.(tap := CaptureDR);
    CaptureTap(c, CaptureDR);
    var c3 := Clock(c2, false, tdi);
    TicksTwo(c1, false, tdi);
  }

  lemma CaptureTap(c: Chip, t: Tap)
    ensures CaptureData(c.(tap := t)) == CaptureData(c).(tap := t)
  {
  }

  lemma TicksTwo(c: Chip, tms: bool, tdi: bool)
    ensures Ticks(c, tms, tdi, 2) == Clock(Clock(c, tms, tdi), tms, tdi)
    ensures Ticks(c, tms, tdi, 1) == Clock(c, tms, tdi)
  {
    hide Clock;
    assert Ticks(Clock(c, tms, tdi), tms, tdi, 1) == Clock(Clock(c, tms, tdi), tms, tdi);
  }

  /** From Run-Test/Idle to Shift-IR. */
  function ToShiftInstruction(c: Chip): (r: Chip) {
    c.(reg := [true, false, false, false], tap := ShiftIR)
  }

  lemma ToShiftInstructionTicks(c: Chip, tdi: bool)
    requires c.tap == RunTestIdle
    ensures Ticks(Ticks(c, true, tdi, 2), false, tdi, 2) == ToShiftInstruction(c)
  {
    var c1 := Clock(c, true, tdi);
    assert c1 == c.(tap := SelectDR);
    var c2 := Clock(c1, true, tdi);
    assert c2 == c.(tap := SelectIR);
    TicksTwo(c, true, tdi);
    var c3 := Clock(c2, false, tdi);
    assert c3 == c.(tap := CaptureIR);
    TicksTwo(c2, false, tdi);
  }

  /** From Shift-DR or Shift-IR through Update to Run-Test/Idle; the exit clock shifts once more. */
  function LeaveShift(c: Chip, tdi: bool): (r: Chip) {
    var c1 := c.(reg := if c.reg == [] then [] else c.reg[1..] + [tdi]);
    Entry(c1.(tap := if c.tap == ShiftDR then UpdateDR else UpdateIR)).(tap := RunTestIdle)
  }

  lemma LeaveShiftTicks(c: Chip, tdi: bool)
    requires c.tap == ShiftDR || c.tap == ShiftIR
    ensures Ticks(Ticks(c, true, tdi, 2), false, tdi, 1) == LeaveShift(c, tdi)
  {
    hide Accept;
    var c1 := Clock(c, true, tdi);
    assert c1 == c.(reg := if c.reg == [] then [] else c.reg[1..] + [tdi], tap := if c.tap == ShiftDR then Exit1DR else Exit1IR);
    var c2 := Clock(c1, true, tdi);
    TicksTwo(c, true, tdi);
    TicksTwo(c2, false, tdi);
  }

  /** One clock in Shift-DR or Shift-IR with TMS low. */
  lemma ShiftTick(c: Chip, tdi: bool)
    requires (c.tap == ShiftDR || c.tap == ShiftIR) && c.reg != []
    ensures Ticks(c, false, tdi, 1) == c.(reg := c.reg[1..] + [tdi])
  {
    TicksTwo(c, false, tdi);
  }
}

/** jtag.cpp: the driver, toggling the pins of the chip. */
module JtagDriver {
  import opened Bits
  import opened DebugPort
  import opened TestAccessPort

  /** The pins that the driver sets, its note of the TAP's state, and the chip at the other end. */
  class Jtag {
    var tms: bool
    var tdi: bool
    var state: char
    var chip: Chip

    /** state is n, r, d or i according to the TAP's state, and TMS is low. */
    ghost predicate Tracks()
      reads this
    {
      && !tms
      && match state
         case 'n' => chip.tap == RunTestIdle
         case 'r' => chip.tap == TestLogicReset
         case 'd' => chip.tap == ShiftDR
         case 'i' => chip.tap == ShiftIR
         case _ => false
    }

    /** The bits to come into the register: TDI is set after the clock, so the last one is still at the pin. */
    ghost function View(): (v: seq<bool>)
      reads this
    {
      chip.reg + [tdi]
    }

    /** The constructor: reset and idle. */
    constructor (target: Chip)
      ensures Tracks() && state == 'n' && chip.ir == IR_IDCODE
    {
      tms, tdi, chip, state := false, false, target, 'n';
      new;
      Reset();
      LeaveState();
    }

    method ClockTicks(n: nat)
      modifies this`chip
      ensures chip == Ticks(old(chip), tms, tdi, n)
    {
      hide Clock;
      var i := 0;
      while i < n
        invariant 0 <= i <= n && chip == Ticks(old(chip), tms, tdi, i)
      {
        TicksLast(old(chip), tms, tdi, i);
        chip := Clock(chip, tms, tdi);
        i := i + 1;
      }
    }

    /** reset, from any state of the TAP */
    method Reset()
      modifies this`tms, this`chip, this`state
      ensures Tracks() && state == 'r' && chip.ir == IR_IDCODE
    {
      tms := true;
      ResetSelects(chip, tdi, 10);
      ClockTicks(10);
      tms := false;
      state := 'r';
    }

    /** setState: from idle to where bits are shifted, or a reset from anywhere. */
    method SetState(c: char)
      requires Tracks() && (c == 'd' || c == 'i' ==> state == 'n')
      modifies this`tms, this`chip, this`state
      ensures Tracks() && state == if c == 'r' || c == 'd' || c == 'i' then c else old(state)
      ensures c == 'd' ==> chip == ToShiftData(old(chip))
      ensures c == 'i' ==> chip == ToShiftInstruction(old(chip))
      ensures c != 'r' && c != 'd' && c != 'i' ==> chip == old(chip)
    {
      hide Ticks, CaptureData;
      match c {
        case 'r' => Reset();
        case 'd' =>
          ToShiftDataTicks(chip, tdi);
          tms := true;
          ClockTicks(1);
          tms := false;
          ClockTicks(2);
          state := 'd';
        case 'i' =>
          ToShiftInstructionTicks(chip, tdi);
          tms := true;
          ClockTicks(2);
          tms := false;
          ClockTicks(2);
          state := 'i';
        case _ =>
      }
    }

    /** leaveState: back to idle. */
    method LeaveState()
      requires Tracks()
      modifies this`tms, this`chip, this`state
      ensures Tracks() && state == 'n'
      ensures old(state) == 'n' ==> chip == old(chip)
      ensures old(state) == 'r' ==> chip == old(chip).(tap := RunTestIdle)
      ensures old(state) == 'd' || old(state) == 'i' ==> chip == LeaveShift(old(chip), tdi)
    {
      hide Ticks, LeaveShift;
      match state {
        case 'n' =>
        case 'r' =>
          tms := false;
          TicksTwo(chip, false, tdi);
          ClockTicks(1);
          state := 'n';
        case _ =>
          LeaveShiftTicks(chip, tdi);
          LeftTap(chip, tdi);
          tms := true;
          ClockTicks(2);
          tms := false;
          ClockTicks(1);
          state := 'n';
      }
    }

    /**
     * shiftBits: reads n bits and sends the low n bits of data. A bit sent waits at the pin until the
     * next clock, which may belong to the next call or to the way out.
     */
    method ShiftBits(data: nat, n: nat) returns (c: nat)
      requires Tracks() && (state == 'd' || state == 'i') && n <= |chip.reg|
      modifies this`tdi, this`chip
      ensures Tracks() && chip == old(chip).(reg := chip.reg) && |chip.reg| == |old(chip).reg|
      ensures View() == (old(View()) + Low(data, n))[n..]
      ensures c == Number(old(chip).reg[..n])
    {
      hide Ticks, Low, Number, Pow2;
      c := 0;
      var i, rest := 0, data;
      ghost var view := View();
      NothingShifted(view, data);
      while i < n
        invariant 0 <= i <= n && Tracks() && chip == old(chip).(reg := chip.reg) && |chip.reg| == |old(chip).reg|
        invariant View() + Low(rest, n - i) == (view + Low(data, n))[i..]
        invariant c == Number(old(chip).reg[..i])
      {
        NextBit(old(chip).reg, view, data, n, i, chip.reg, tdi, rest);
        if Tdo(chip) {
          c := c + Pow2(i);
        }
        ShiftTick(chip, tdi);
        ClockTicks(1);
        tdi := rest % 2 == 1;
        rest := rest / 2;
        i := i + 1;
      }
      AllShifted(View(), rest, view, data, n);
    }

    /** The driver is idle and the chip's registers hold 32-bit words. */
    ghost predicate Idle()
      reads this
    {
      Tracks() && state == 'n' && DapOk(chip.dap)
    }

    /** setIR: the captured pattern is 0001, so the driver does not give up, and A becomes the instruction. */
    method SetIR(a: nat)
      requires Idle() && a < 16
      modifies this
      ensures Idle() && chip.ir == a && chip.dap == old(chip).dap && chip.idcode == old(chip).idcode
    {
      hide Low, Number, Pow2;
      SetState('i');
      ghost var tdi0 := tdi;
      CaptureOne();
      assert chip.reg[..4] == [true, false, false, false];
      assert View() == [true, false, false, false, tdi0];
      var one := ShiftBits(a, 4);
      InstructionSent(View(), tdi0, a);
      assert one == 1;
      assert chip.reg[1..] + [tdi] == View()[1..];
      LeaveState();
    }

    /** The three bits before the data of a transaction; what comes back is the acknowledgement. */
    method ShiftAck(addr: nat, rw: bool) returns (okstat: nat)
      requires Tracks() && state == 'd' && chip.reg == Captured(chip.dap) && addr < 16 && addr % 4 == 0
      modifies this`tdi, this`chip
      ensures Tracks() && chip == old(chip).(reg := chip.reg) && |chip.reg| == 35
      ensures okstat == if chip.dap.stalled then 1 else 2
      ensures View()[..32] == old(chip).reg[3..] && View()[33..] == [rw] + Low(addr / 4, 2)
    {
      hide Low, Number, Pow2, Captured;
      ghost var view, cap := View(), chip.reg;
      okstat := ShiftBits(if rw then 1 else 0, 1);
      ghost var view1 := View();
      var more := ShiftBits(addr / 4, 2);
      AckBits(chip.dap, cap, view, view1, View(), rw, addr / 4, chip.reg);
      okstat := okstat + 2 * more;
    }

    /** The loop of shiftData: scans until one is not answered with WAIT, up to its data bits. */
    method AwaitOk(addr: nat, rw: bool)
      requires Tracks() && state == 'n' && addr < 16 && addr % 4 == 0 && (chip.ir == IR_DPACC || chip.ir == IR_APACC)
      modifies this
      ensures Tracks() && state == 'd' && chip.ir == old(chip).ir && chip.idcode == old(chip).idcode && |chip.reg| == 35
      ensures chip.dap == Patient(old(chip).dap)
      ensures View()[..32] == Low(chip.dap.result, 32) && View()[33..] == [rw] + Low(addr / 4, 2)
    {
      hide Low, Captured, Patient, Execute;
      var gotwait := true;
      while gotwait
        invariant Tracks() && chip.ir == old(chip).ir && chip.idcode == old(chip).idcode
        invariant gotwait ==> state == 'n' && Patient(chip.dap) == Patient(old(chip).dap)
        invariant !gotwait ==> state == 'd' && chip.dap == Patient(old(chip).dap) && |chip.reg| == 35
        invariant !gotwait ==> View()[..32] == Low(chip.dap.result, 32) && View()[33..] == [rw] + Low(addr / 4, 2)
        decreases if gotwait then |chip.dap.waits| + 1 else 0
      {
        gotwait := false;
        AnswerCases(chip.dap);
        SetState('d');
        var okstat := ShiftAck(addr, rw);
        if okstat == 1 {
          StalledLeaves(chip, tdi);
          LeaveState();
          gotwait := true;
        }
      }
    }

    /**
     * shiftData: one transaction, repeated as long as it is answered with WAIT. It returns the result of
     * the transaction before.
     */
    method ShiftData(data: nat, addr: nat, rw: bool) returns (word: nat)
      requires Idle() && data < WORD && addr < 16 && addr % 4 == 0 && (chip.ir == IR_DPACC || chip.ir == IR_APACC)
      modifies this
      ensures Idle() && chip.ir == old(chip).ir && chip.idcode == old(chip).idcode
      ensures chip.dap == Execute(Patient(old(chip).dap), chip.ir == IR_APACC, rw, addr / 4, data)
      ensures word == old(chip).dap.result
    {
      hide Low, Number, Pow2, Execute, Captured, Accept, DapOk;
      PatientOk(chip.dap);
      AwaitOk(addr, rw);
      ghost var view, dap := View(), chip.dap;
      assert chip.reg == view[..35];
      word := ShiftBits(data, 32);
      ResultBits(view, dap.result);
      RequestSent(view, View(), dap, chip.ir == IR_APACC, rw, addr / 4, data);
      ExecuteOk(dap, chip.ir == IR_APACC, rw, addr / 4, data);
      assert chip.reg[1..] + [tdi] == View()[1..];
      LeaveState();
    }

    /** rdBuff; without set_ir the access goes to whatever the instruction register selects. */
    method RdBuff(setIr: bool) returns (word: nat)
      requires Idle() && (setIr || chip.ir == IR_DPACC || chip.ir == IR_APACC)
      modifies this
      ensures Idle() && chip.idcode == old(chip).idcode && chip.ir == (if setIr then IR_DPACC else old(chip).ir)
      ensures word == old(chip).dap.result
      ensures chip.dap == Execute(Patient(old(chip).dap), chip.ir == IR_APACC, true, RDBUFF, 0)
    {
      hide Idle, Execute, Patient;
      if setIr {
        SetIR(IR_DPACC);
      }
      word := ShiftData(0, 0xc, true);
    }

    /** readAPACC without rdthis: posts a read of the register and returns the result of the access before. */
    method ReadAPACC(addr: nat, setIr: bool) returns (word: nat)
      requires Idle() && addr < 16 && addr % 4 == 0 && (setIr || chip.ir == IR_APACC)
      modifies this
      ensures Idle() && chip.idcode == old(chip).idcode && chip.ir == IR_APACC && word == old(chip).dap.result
      ensures chip.dap == ApRead(Patient(old(chip).dap), addr / 4)
    {
      hide Idle, ApRead, Patient;
      if setIr {
        SetIR(IR_APACC);
      }
      word := ShiftData(0, addr, true);
    }

    /** readAPACC with rdthis: the register itself, by way of RDBUFF. */
    method ReadThisAPACC(addr: nat) returns (word: nat)
      requires Idle() && addr < 16 && addr % 4 == 0
      modifies this
      ensures Idle() && chip.idcode == old(chip).idcode && chip.ir == IR_DPACC
      ensures word == ApRead(Patient(old(chip).dap), addr / 4).result
      ensures chip.dap.mem == ApRead(Patient(old(chip).dap), addr / 4).mem
    {
      hide Idle, ApRead, Patient, Execute;
      var before := ReadAPACC(addr, true);
      ghost var dap := chip.dap;
      word := RdBuff(true);
      BufferRead(dap, chip.dap);
    }

    /** writeAPACC */
    method WriteAPACC(data: nat, addr: nat, setIr: bool)
      requires Idle() && data < WORD && addr < 16 && addr % 4 == 0 && (setIr || chip.ir == IR_APACC)
      modifies this
      ensures Idle() && chip.idcode == old(chip).idcode && chip.ir == IR_APACC
      ensures chip.dap == ApWrite(Patient(old(chip).dap), addr / 4, data)
    {
      hide Idle, ApWrite, Patient;
      if setIr {
        SetIR(IR_APACC);
      }
      var before := ShiftData(data, addr, false);
    }

    /** writeBanksel */
    method WriteBanksel(banksel: nat)
      requires Idle() && banksel < 16
      modifies this
      ensures Idle() && chip.idcode == old(chip).idcode && chip.ir == IR_DPACC
      ensures chip.dap == DpWrite(Patient(old(chip).dap), SELECT, banksel * 16)
    {
      hide Idle, DpWrite, Patient;
      SetIR(IR_DPACC);
      var before := ShiftData(banksel * 16, 0x8, false);
    }

    /** readID: the identification code that IDCODE selects. */
    method ReadID() returns (id: nat)
      requires Idle() && chip.idcode < WORD
      modifies this
      ensures Idle() && id == old(chip).idcode && chip.dap == old(chip).dap
    {
      hide Low, Number, Pow2, DapOk;
      SetIR(IR_IDCODE);
      SetState('d');
      assert chip.reg[..32] == Low(chip.idcode, 32);
      WordPower();
      NumberOfLow(chip.idcode, 32);
      id := ShiftBits(0, 32);
      LeaveState();
    }

    /** What memRead and memWrite do first: bank 0, 32-bit accesses with TAR incremented after each. */
    method SetUp()
      requires Idle()
      modifies this
      ensures Idle() && Streaming(chip) && chip.dap.mem == old(chip).dap.mem && chip.idcode == old(chip).idcode
    {
      hide DapOk, Patient;
      WriteBanksel(0);
      SetUpBank(old(chip).dap, chip.dap);
      ghost var dap := chip.dap;
      WriteAPACC(0x23000052, 0x0, true);
      SetUpWord(dap, chip.dap);
    }

    /** The inner loop of memRead: the words lo to hi of the array, from the 4 KB page that addr is in. */
    method ReadChunk(addr: nat, readdata: array<nat>, lo: nat, hi: nat, check: bool) returns (mismatch: nat)
      requires Idle() && Streaming(chip) && addr < WORD && lo < hi <= readdata.Length
      modifies this, readdata
      ensures Idle() && Streaming(chip) && chip.dap.mem == old(chip).dap.mem
      ensures forall k :: 0 <= k < readdata.Length ==>
                readdata[k] == if lo <= k < hi then WordAt(chip.dap.mem, addr, k - lo) else old(readdata[k])
      ensures mismatch == if check then Differing(old(readdata[..]), readdata[..], lo, hi) else 0
    {
      hide DapOk, Patient, ApRead, ApWrite, WordAt, PageStep;
      ghost var mem, before := chip.dap.mem, readdata[..];
      mismatch := 0;
      ghost var dap := chip.dap;
      WriteAPACC(addr, 0x4, false);
      TarSet(dap, chip.dap, addr);
      dap := chip.dap;
      var word := ReadAPACC(0xc, false);
      DataRead(dap, chip.dap, addr, 0);
      var j := lo + 1;
      while j < hi
        invariant lo < j <= hi && Idle() && Streaming(chip) && chip.dap.mem == mem
        invariant chip.dap.tar == PageStep(addr, j - lo) && chip.dap.result == WordAt(mem, addr, j - 1 - lo)
        invariant forall k :: 0 <= k < readdata.Length ==>
                    readdata[k] == if lo <= k < j - 1 then WordAt(mem, addr, k - lo) else before[k]
        invariant mismatch == if check then Differing(before, readdata[..], lo, j - 1) else 0
      {
        dap := chip.dap;
        word := ReadAPACC(0xc, false);
        DataRead(dap, chip.dap, addr, j - lo);
        mismatch := Compare(readdata, j - 1, word, check, mismatch, before, lo);
        j := j + 1;
      }
      dap := chip.dap;
      word := RdBuff(false);
      DataRead(dap, chip.dap, addr, j - lo);
      mismatch := Compare(readdata, j - 1, word, check, mismatch, before, lo);
    }

    /** A word arrives for the array, and is compared with what was there if check is set. */
    method Compare(readdata: array<nat>, k: nat, word: nat, check: bool, mismatch: nat, ghost before: seq<nat>, ghost lo: nat)
        returns (mismatch': nat)
      requires lo <= k < readdata.Length == |before| && readdata[k] == before[k]
      requires mismatch == if check then Differing(before, readdata[..], lo, k) else 0
      modifies readdata
      ensures readdata[..] == old(readdata[..])[k := word]
      ensures mismatch' == if check then Differing(before, readdata[..], lo, k + 1) else 0
    {
      mismatch' := mismatch;
      if check && readdata[k] != word {
        mismatch' := mismatch' + 1;
      }
      ghost var now := readdata[..];
      readdata[k] := word;
      DifferingSame(before, now, readdata[..], lo, k);
    }

    /**
     * memRead: word k of the array is the memory word of page k / 1024, at step k % 1024, counting 4 KB
     * pages from base; the reads are posted, and the last one is fetched with an access to DRW again.
     */
    method MemRead(base: nat, readdata: array<nat>, size: int, check: bool) returns (mismatch: nat)
      requires Idle() && base < WORD && size <= readdata.Length
      modifies this, readdata
      ensures Idle() && chip.dap.mem == old(chip).dap.mem
      ensures forall k :: 0 <= k < readdata.Length ==>
                readdata[k] == if k < size then Load(chip.dap.mem, Address(base, k)) else old(readdata[k])
      ensures mismatch == if check then Differing(old(readdata[..]), readdata[..], 0, size) else 0
    {
      hide DapOk, Address, Differing;
      ghost var mem, before := chip.dap.mem, readdata[..];
      mismatch := 0;
      SetUp();
      NoDifference(before, readdata[..], 0);
      var addr, i := base, 0;
      PageStart(base, 0);
      while i * 1024 < size
        invariant 0 <= i && addr == PageBase(base, i) < WORD && Idle() && Streaming(chip) && chip.dap.mem == mem
        invariant forall k :: 0 <= k < readdata.Length ==>
                    readdata[k] == if k < size && k < 1024 * i then Load(mem, Address(base, k)) else before[k]
        invariant mismatch == if check then Differing(before, readdata[..], 0, Upto(i, size)) else 0
        decreases size - i * 1024
      {
        var lo, hi := 1024 * i, if size < 1024 * (i + 1) then size else 1024 * (i + 1);
        ghost var now := readdata[..];
        var more := ReadChunk(addr, readdata, lo, hi, check);
        ChunkWords(mem, base, i, lo, hi);
        DifferingChunk(before, now, readdata[..], lo, hi);
        mismatch := mismatch + more;
        PageStart(base, i);
        addr := (addr + 1024 * 4) % WORD;
        i := i + 1;
      }
      assert size >= 0 ==> Upto(i, size) == size;
      if check && size < 0 {
        NoDifference(before, readdata[..], 0);
        NoDifference(before, readdata[..], size);
        assert mismatch == Differing(before, readdata[..], 0, size);
      }
      assert mismatch == if check then Differing(before, readdata[..], 0, size) else 0;
    }

    /** memWrite: word k of the data goes to page k / 1024, step k % 1024; zero writes zeros instead. */
    method MemWrite(base: nat, writedata: seq<nat>, size: int, zero: bool)
      requires Idle() && base < WORD && size <= |writedata| && forall k :: 0 <= k < |writedata| ==> writedata[k] < WORD
      modifies this
      ensures Idle()
      ensures chip.dap.mem == Written(old(chip).dap.mem, base, writedata, if size < 0 then 0 else size, zero)
    {
      hide DapOk, Written;
      ghost var mem := chip.dap.mem;
      SetUp();
      var addr, i := base, 0;
      PageStart(base, 0);
      WriteNothing(mem, base, writedata, zero);
      while i * 1024 < size
        invariant 0 <= i && addr == PageBase(base, i) < WORD && Idle() && Streaming(chip)
        invariant chip.dap.mem == Written(mem, base, writedata, Upto(i, size), zero)
        decreases size - i * 1024
      {
        WriteChunk(addr, base, writedata, i, if size < 1024 * (i + 1) then size else 1024 * (i + 1), zero, mem);
        PageStart(base, i);
        addr := (addr + 1024 * 4) % WORD;
        i := i + 1;
      }
    }

    /** The inner loop of memWrite. */
    method WriteChunk(addr: nat, ghost base: nat, writedata: seq<nat>, i: nat, hi: nat, zero: bool, ghost mem: map<nat, nat>)
      requires Idle() && Streaming(chip) && addr == PageBase(base, i) < WORD && 1024 * i < hi <= |writedata|
      requires hi <= 1024 * (i + 1) && forall k :: 0 <= k < |writedata| ==> writedata[k] < WORD
      requires chip.dap.mem == Written(mem, base, writedata, 1024 * i, zero)
      modifies this
      ensures Idle() && Streaming(chip) && chip.dap.mem == Written(mem, base, writedata, hi, zero)
    {
      hide DapOk, Patient, ApWrite, PageStep, Written;
      ghost var dap := chip.dap;
      WriteAPACC(addr, 0x4, false);
      TarSet(dap, chip.dap, addr);
      var j := 1024 * i;
      while j < hi
        invariant 1024 * i <= j <= hi && Idle() && Streaming(chip)
        invariant chip.dap.tar == PageStep(addr, j - 1024 * i) && chip.dap.mem == Written(mem, base, writedata, j, zero)
      {
        dap := chip.dap;
        WriteAPACC(if zero then 0 else writedata[j], 0xc, false);
        DataWritten(dap, chip.dap, addr, j - 1024 * i, if zero then 0 else writedata[j]);
        WriteNext(mem, base, writedata, i, j, zero);
        j := j + 1;
      }
    }

    /** readMemory */
    method ReadMemory(address: nat) returns (word: nat)
      requires Idle() && address < WORD
      modifies this
      ensures Idle() && chip.dap.mem == old(chip).dap.mem && word == Load(chip.dap.mem, WordAddress(address))
    {
      hide DapOk, Patient, ApRead, ApWrite, PageStep;
      SetUp();
      ghost var dap := chip.dap;
      WriteAPACC(address, 0x4, true);
      TarSet(dap, chip.dap, address);
      StepOnce(address, 0, chip.dap.csw);
      dap := chip.dap;
      word := ReadThisAPACC(0xc);
      DataRead(dap, ApRead(Patient(dap), DRW), address, 0);
    }

    /** writeMemory */
    method WriteMemory(address: nat, value: nat)
      requires Idle() && address < WORD && value < WORD
      modifies this
      ensures Idle() && chip.dap.mem == old(chip).dap.mem[WordAddress(address) := value]
    {
      hide DapOk, Patient, ApWrite, PageStep;
      SetUp();
      ghost var dap := chip.dap;
      WriteAPACC(address, 0x4, true);
      TarSet(dap, chip.dap, address);
      StepOnce(address, 0, chip.dap.csw);
      dap := chip.dap;
      WriteAPACC(value, 0xc, true);
      DataWritten(dap, chip.dap, address, 0, value);
    }
  }

  lemma LeftTap(c: Chip, tdi: bool)
    ensures LeaveShift(c, tdi).tap == RunTestIdle
  {
  }

  lemma NothingShifted(view: seq<bool>, data: nat)
    ensures Number([]) == 0
  {
  }

  /** One round of shiftBits. */
  lemma NextBit(reg0: seq<bool>, view: seq<bool>, data: nat, n: nat, i: nat, reg: seq<bool>, tdi: bool, rest: nat)
    requires i < n <= |reg0| == |reg| && |view| == |reg0| + 1 && view[..|reg0|] == reg0
    requires reg + [tdi] + Low(rest, n - i) == (view + Low(data, n))[i..]
    ensures reg[0] == reg0[i]
    ensures reg[1..] + [tdi] + [rest % 2 == 1] + Low(rest / 2, n - i - 1) == (view + Low(data, n))[i + 1..]
    ensures Number(reg0[..i + 1]) == Number(reg0[..i]) + if reg0[i] then Pow2(i) else 0
  {
    hide Number, Pow2;
    assert reg[0] == (reg + [tdi] + Low(rest, n - i))[0] == (view + Low(data, n))[i];
    assert Low(rest, n - i) == [rest % 2 == 1] + Low(rest / 2, n - i - 1);
    assert (reg + [tdi] + Low(rest, n - i))[1..] == reg[1..] + [tdi] + [rest % 2 == 1] + Low(rest / 2, n - i - 1);
    assert (view + Low(data, n))[i..][1..] == (view + Low(data, n))[i + 1..];
    assert reg0[..i + 1] == reg0[..i] + [reg0[i]];
    NumberAppend(reg0[..i], reg0[i]);
  }

  lemma AllShifted(v: seq<bool>, rest: nat, view: seq<bool>, data: nat, n: nat)
    requires |view| >= 0 && v + Low(rest, 0) == (view + Low(data, n))[n..]
    ensures v == (view + Low(data, n))[n..]
  {
    assert Low(rest, 0) == [];
  }

  lemma CaptureOne()
    ensures Number([true, false, false, false]) == 1
  {
    assert Number([false]) == 0 && Number([false, false]) == 0 && Number([false, false, false]) == 0;
  }

  /** After four bits in a four-bit register the exit clock brings in the last one. */
  lemma InstructionSent(view: seq<bool>, t: bool, a: nat)
    requires a < 16 && view == ([true, false, false, false, t] + Low(a, 4))[4..]
    ensures view == [t] + Low(a, 4) && view[1..] == Low(a, 4) && Number(Low(a, 4)) == a
  {
    hide Low, Number;
    assert Pow2(4) == 16 by { assert Pow2(2) == 4; }
    NumberOfLow(a, 4);
  }

  /** The scans that are answered with WAIT are over. */
  function Patient(d: Dap): (r: Dap) {
    d.(waits := AfterWaits(d.waits), stalled := false)
  }

  function AfterWaits(waits: seq<bool>): (r: seq<bool>) {
    if waits == [] then [] else if waits[0] then AfterWaits(waits[1..]) else waits[1..]
  }

  lemma PatientOk(d: Dap)
    requires DapOk(d)
    ensures DapOk(Patient(d)) && Patient(d).result == d.result && !Patient(d).stalled
  {
  }

  /** The answer to the next scan. */
  lemma AnswerCases(d: Dap)
    ensures var r := Answer(d);
            && (r.stalled ==> Patient(r) == Patient(d) && |r.waits| < |d.waits|)
            && (!r.stalled ==> r == Patient(d) && Captured(r)[3..] == Low(r.result, 32))
  {
    hide Low;
    assert ([false, true, false] + Low(Answer(d).result, 32))[3..] == Low(Answer(d).result, 32);
  }

  lemma StalledLeaves(c: Chip, tdi: bool)
    requires c.tap == ShiftDR && c.dap.stalled
    ensures LeaveShift(c, tdi).dap == c.dap && LeaveShift(c, tdi).ir == c.ir && LeaveShift(c, tdi).idcode == c.idcode
  {
  }

  /** The acknowledgement read, and the register afterwards. */
  lemma AckBits(d: Dap, cap: seq<bool>, view: seq<bool>, view1: seq<bool>, view2: seq<bool>, rw: bool, a: nat,
                reg2: seq<bool>)
    requires cap == Captured(d) && |view| == 36 && view[..35] == cap
    requires view1 == (view + Low(if rw then 1 else 0, 1))[1..] && view2 == (view1 + Low(a, 2))[2..]
    ensures |view1| == 36 && |view2| == 36
    ensures Number(cap[..1]) + 2 * Number(view1[..35][..2]) == if d.stalled then 1 else 2
    ensures view2[..32] == cap[3..] && view2[33..] == [rw] + Low(a, 2)
  {
    hide Low;
    var x := [d.stalled] + [!d.stalled] + [false];
    assert cap[..3] == x;
    assert cap[1] == x[1] && cap[2] == x[2] && view[1] == cap[1] && view[2] == cap[2];
    assert Low(if rw then 1 else 0, 1) == [rw] by { OneBit(rw); }
    assert view1 == view[1..] + [rw];
    assert view1[0] == view[1] && view1[1] == view[2] && x[1] == !d.stalled && !x[2];
    assert view1[..35][..2] == [!d.stalled, false];
    assert cap[..1] == [d.stalled];
    TwoBits(!d.stalled);
    assert view2 == view[3..] + [rw] + Low(a, 2);
    assert view[3..35] == cap[3..];
  }

  lemma OneBit(b: bool)
    ensures Low(if b then 1 else 0, 1) == [b]
  {
    assert Low(0, 0) == [];
  }

  lemma TwoBits(b: bool)
    ensures Number([b, false]) == (if b then 1 else 0) && Number([!b]) == if b then 0 else 1
  {
    assert Number([false]) == 0;
  }

  lemma ResultBits(view: seq<bool>, result: nat)
    requires result < WORD && |view| == 36 && view[..32] == Low(result, 32)
    ensures Number(view[..35][..32]) == result
  {
    hide Low, Number;
    assert view[..35][..32] == view[..32];
    WordPower();
    NumberOfLow(result, 32);
  }

  lemma WordPower()
    ensures Pow2(32) == WORD
  {
    assert Pow2(8) == 256 by { assert Pow2(4) == 16 by { assert Pow2(2) == 4; } }
    assert Pow2(16) == 0x1_0000 by { assert Pow2(12) == 4096 by { assert Pow2(10) == 1024; } assert Pow2(14) == 16384; }
    assert Pow2(24) == 0x100_0000 by {
      assert Pow2(18) == 0x4_0000;
      assert Pow2(20) == 0x10_0000;
      assert Pow2(22) == 0x40_0000;
    }
    assert Pow2(26) == 0x400_0000;
    assert Pow2(28) == 0x1000_0000;
    assert Pow2(30) == 0x4000_0000;
  }

  /** The exit clock brings the request into the register whole, and it is carried out. */
  lemma RequestSent(view: seq<bool>, view2: seq<bool>, d: Dap, ap: bool, rw: bool, a: nat, data: nat)
    requires |view| == 36 && view[33..] == [rw] + Low(a, 2) && view2 == (view + Low(data, 32))[32..]
    requires a < 4 && data < WORD && !d.stalled
    ensures |view2| == 36 && Accept(d, ap, view2[1..]) == Execute(d, ap, rw, a, data)
  {
    hide Low, Number, Execute;
    var reg := view2[1..];
    assert reg == view[33..] + Low(data, 32);
    assert reg[0] == rw && reg[1..3] == Low(a, 2) && reg[3..] == Low(data, 32);
    assert Pow2(2) == 4;
    NumberOfLow(a, 2);
    WordPower();
    NumberOfLow(data, 32);
  }

  /** 32-bit accesses, and TAR incremented after each. */
  predicate Words(csw: nat) {
    csw % 8 == 2 && Increments(csw)
  }

  /** The access port is selected and set up for a stream of 32-bit accesses. */
  ghost predicate Streaming(c: Chip) {
    c.ir == IR_APACC && Bank(c.dap.select) == 0 && Words(c.dap.csw)
  }

  lemma SetUpBank(d: Dap, d': Dap)
    requires d' == DpWrite(Patient(d), SELECT, 0)
    ensures Bank(d'.select) == 0 && d'.mem == d.mem
  {
  }

  lemma SetUpWord(d: Dap, d': Dap)
    requires d' == ApWrite(Patient(d), 0, 0x23000052) && Bank(d.select) == 0
    ensures Bank(d'.select) == 0 && Words(d'.csw) && d'.mem == d.mem
  {
  }

  /** TAR after m data accesses from addr. */
  function PageStep(addr: nat, m: nat): (t: nat) {
    addr - addr % PAGE + (addr % PAGE + 4 * m) % PAGE
  }

  /** The word read by the m-th data access from addr. */
  function WordAt(mem: map<nat, nat>, addr: nat, m: nat): (w: nat) {
    Load(mem, WordAddress(PageStep(addr, m)))
  }

  lemma StepOnce(addr: nat, m: nat, csw: nat)
    requires Words(csw)
    ensures Increment(PageStep(addr, m), csw) == PageStep(addr, m + 1) && PageStep(addr, 0) == addr
  {
    var low := (addr % PAGE + 4 * m) % PAGE;
    assert (addr - addr % PAGE) % PAGE == 0;
    assert PageStep(addr, m) % PAGE == low;
    assert (low + 4) % PAGE == (addr % PAGE + 4 * m + 4) % PAGE;
  }

  lemma TarSet(d: Dap, d': Dap, addr: nat)
    requires d' == ApWrite(Patient(d), TAR, addr) && Bank(d.select) == 0 && Words(d.csw)
    ensures d'.mem == d.mem && d'.select == d.select && d'.csw == d.csw && d'.tar == PageStep(addr, 0)
  {
    StepOnce(addr, 0, d.csw);
  }

  lemma BufferRead(d: Dap, d': Dap)
    requires d' == Execute(Patient(d), false, true, RDBUFF, 0)
    ensures d'.mem == d.mem
  {
  }

  lemma DataRead(d: Dap, d': Dap, addr: nat, m: nat)
    requires d' == ApRead(Patient(d), DRW) && Bank(d.select) == 0 && Words(d.csw) && d.tar == PageStep(addr, m)
    ensures d'.mem == d.mem && d'.select == d.select && d'.csw == d.csw
    ensures d'.result == WordAt(d.mem, addr, m) && d'.tar == PageStep(addr, m + 1)
  {
    hide PageStep, Lanes;
    AllLanes(Load(d.mem, WordAddress(d.tar)), 0, d.tar, d.csw);
    StepOnce(addr, m, d.csw);
  }

  lemma DataWritten(d: Dap, d': Dap, addr: nat, m: nat, data: nat)
    requires d' == ApWrite(Patient(d), DRW, data) && Bank(d.select) == 0 && Words(d.csw) && d.tar == PageStep(addr, m)
    ensures d'.mem == d.mem[WordAddress(PageStep(addr, m)) := data] && d'.select == d.select && d'.csw == d.csw
    ensures d'.tar == PageStep(addr, m + 1)
  {
    hide PageStep, Lanes;
    AllLanes(data, Load(d.mem, WordAddress(d.tar)), d.tar, d.csw);
    StepOnce(addr, m, d.csw);
  }

  /** Words that differ between the indices lo and hi. */
  function Differing(a: seq<nat>, b: seq<nat>, lo: nat, hi: int): (n: nat)
    requires hi <= |a| == |b|
    decreases hi
  {
    if hi <= lo then 0 else Differing(a, b, lo, hi - 1) + if a[hi - 1] != b[hi - 1] then 1 else 0
  }

  lemma {:induction false} DifferingSame(a: seq<nat>, b: seq<nat>, c: seq<nat>, lo: nat, hi: int)
    requires hi <= |a| == |b| == |c| && forall k :: lo <= k < hi ==> b[k] == c[k]
    ensures Differing(a, b, lo, hi) == Differing(a, c, lo, hi)
    decreases hi
  {
    if hi > lo {
      DifferingSame(a, b, c, lo, hi - 1);
    }
  }

  lemma NoDifference(a: seq<nat>, b: seq<nat>, hi: int)
    requires hi <= 0 && |a| == |b|
    ensures Differing(a, b, 0, hi) == 0
  {
  }

  /** A chunk's differences add to those before it. */
  lemma {:induction false} DifferingChunk(before: seq<nat>, now: seq<nat>, after: seq<nat>, lo: nat, hi: nat)
    requires lo <= hi <= |before| == |now| == |after|
    requires forall k :: 0 <= k < lo ==> now[k] == after[k]
    requires forall k :: lo <= k < hi ==> now[k] == before[k]
    ensures Differing(before, after, 0, hi) == Differing(before, now, 0, lo) + Differing(now, after, lo, hi)
    decreases hi
  {
    if lo < hi {
      DifferingChunk(before, now, after, lo, hi - 1);
    } else {
      DifferingSame(before, now, after, 0, lo);
    }
  }

  function PageBase(base: nat, i: nat): (a: nat) {
    (base + PAGE * i) % WORD
  }

  /** How many words the first i chunks hold. */
  function Upto(i: nat, size: int): (n: nat) {
    if size < 0 then 0 else if size < 1024 * i then size else 1024 * i
  }

  /** Where word k of a block transfer from base comes from or goes to. */
  function Address(base: nat, k: nat): (a: nat) {
    WordAddress(PageStep(PageBase(base, k / 1024), k % 1024))
  }

  lemma PageStart(base: nat, i: nat)
    requires base < WORD
    ensures PageBase(base, 0) == base && PageBase(base, i + 1) == (PageBase(base, i) + 1024 * 4) % WORD
  {
  }

  lemma ChunkWords(mem: map<nat, nat>, base: nat, i: nat, lo: nat, hi: nat)
    requires lo == 1024 * i && hi <= 1024 * (i + 1)
    ensures forall k :: lo <= k < hi ==> WordAt(mem, PageBase(base, i), k - lo) == Load(mem, Address(base, k))
  {
    hide PageStep, WordAddress, PageBase;
    forall k | lo <= k < hi
      ensures WordAt(mem, PageBase(base, i), k - lo) == Load(mem, Address(base, k))
    {
      assert k / 1024 == i && k % 1024 == k - lo;
    }
  }

  /** Memory after the first n words have been written. */
  function Written(mem: map<nat, nat>, base: nat, w: seq<nat>, n: nat, zero: bool): (r: map<nat, nat>)
    requires n <= |w|
  {
    if n == 0 then mem else Written(mem, base, w, n - 1, zero)[Address(base, n - 1) := if zero then 0 else w[n - 1]]
  }

  lemma WriteNothing(mem: map<nat, nat>, base: nat, w: seq<nat>, zero: bool)
    ensures Written(mem, base, w, 0, zero) == mem
  {
  }

  lemma WriteNext(mem: map<nat, nat>, base: nat, w: seq<nat>, i: nat, j: nat, zero: bool)
    requires 1024 * i <= j < |w| && j < 1024 * (i + 1)
    ensures Written(mem, base, w, j + 1, zero) ==
            Written(mem, base, w, j, zero)[WordAddress(PageStep(PageBase(base, i), j - 1024 * i)) := if zero then 0 else w[j]]
  {
    hide PageStep, WordAddress, PageBase;
    assert j / 1024 == i && j % 1024 == j - 1024 * i;
  }

  // ----- what the transfers mean for the memory behind the port

  /** The words of the first chunk stay inside the 4 KB page of base. */
  predicate Fits(base: nat, size: nat) {
    base % PAGE + 4 * (if size < 1024 then size else 1024) <= PAGE
  }

  /**
   * Word k is the one at base + 4 k, for all k, exactly when the first chunk does not cross a 4 KB
   * boundary: TAR does not carry out of its page. A 4 KB aligned base always will do.
   */
  lemma AddressesAreLinear(base: nat, size: nat)
    requires base % 4 == 0 && base + 4 * size <= WORD && size > 0
    ensures Fits(base, size) <==> forall k :: 0 <= k < size ==> Address(base, k) == base + 4 * k
    ensures base % PAGE == 0 ==> Fits(base, size)
  {
    if Fits(base, size) {
      forall k | 0 <= k < size
        ensures Address(base, k) == base + 4 * k
      {
        AddressFits(base, size, k);
      }
    } else {
      AddressWraps(base, size);
    }
  }

  /** Two words from the last word of a page: the second access goes back to the first word of that page. */
  lemma UnalignedWraps()
    ensures !Fits(4092, 2) && Address(4092, 0) == 4092 && Address(4092, 1) == 0
  {
    hide PageStep, WordAddress, PageBase;
    assert PageBase(4092, 0) == 4092 by { FirstPage(4092); }
    SecondStep();
    assert 1 / 1024 == 0 && 1 % 1024 == 1 && 0 / 1024 == 0 && 0 % 1024 == 0;
  }

  lemma FirstPage(base: nat)
    requires base < WORD
    ensures PageBase(base, 0) == base
  {
  }

  lemma SecondStep()
    ensures WordAddress(PageStep(4092, 0)) == 4092 && WordAddress(PageStep(4092, 1)) == 0
  {
  }

  /** TAR stays below the end of the page. */
  lemma StepInPage(t: nat, m: nat)
    requires t % 4 == 0 && t % 4096 + 4 * m < 4096
    ensures WordAddress(PageStep(t, m)) == t + 4 * m
  {
    assert (t + 4 * m) % 4 == 0;
  }

  lemma {:induction false} PageAdd(base: nat, i: nat)
    ensures (base + 4096 * i) % 4096 == base % 4096
  {
    if i > 0 {
      PageAdd(base, i - 1);
      NextPage(base + 4096 * (i - 1));
    }
  }

  lemma NextPage(x: nat)
    ensures (x + 4096) % 4096 == x % 4096
  {
  }

  lemma {:induction false} WordAligned(base: nat, i: nat)
    requires base % 4 == 0
    ensures (base + 4096 * i) % 4 == 0
  {
    if i > 0 {
      WordAligned(base, i - 1);
      NextWords(base + 4096 * (i - 1));
    }
  }

  lemma NextWords(x: nat)
    ensures (x + 4096) % 4 == x % 4
  {
  }

  lemma ChunkStep(base: nat, i: nat, m: nat)
    requires base % 4 == 0 && base + 4096 * i < WORD && base % 4096 + 4 * m < 4096
    ensures WordAddress(PageStep(PageBase(base, i), m)) == base + 4096 * i + 4 * m
  {
    hide PageStep, WordAddress;
    PageAdd(base, i);
    WordAligned(base, i);
    StepInPage(base + 4096 * i, m);
  }

  lemma AddressFits(base: nat, size: nat, k: nat)
    requires base % 4 == 0 && base + 4 * size <= WORD && k < size && Fits(base, size)
    ensures Address(base, k) == base + 4 * k
  {
    hide PageStep, WordAddress, PageBase;
    var i, m := k / 1024, k % 1024;
    assert k == 1024 * i + m;
    ChunkStep(base, i, m);
  }

  lemma AddressWraps(base: nat, size: nat)
    requires base % 4 == 0 && base + 4 * size <= WORD && size > 0 && !Fits(base, size)
    ensures exists k :: 0 <= k < size && Address(base, k) != base + 4 * k
  {
    var k := (4096 - base % 4096) / 4;
    assert base % 4096 + 4 * k == 4096;
    assert k < size && k / 1024 == 0 && k % 1024 == k;
    StepOverEnd(base, k);
    assert Address(base, k) != base + 4 * k;
  }

  lemma StepOverEnd(base: nat, k: nat)
    requires base % 4 == 0 && base < WORD && base % 4096 + 4 * k == 4096
    ensures WordAddress(PageStep(PageBase(base, 0), k)) == base - base % 4096
  {
    var t := base - base % 4096;
    assert t % 4 == 0;
  }

  /** Writing fills exactly the words from base on. */
  lemma {:induction false} WrittenWords(mem: map<nat, nat>, base: nat, w: seq<nat>, n: nat, zero: bool, a: nat)
    requires n <= |w| && base % 4 == 0 && base + 4 * |w| <= WORD && Fits(base, |w|)
    ensures Load(Written(mem, base, w, n, zero), a) ==
            if base <= a < base + 4 * n && (a - base) % 4 == 0 then (if zero then 0 else w[(a - base) / 4]) else Load(mem, a)
  {
    hide Address;
    if n > 0 {
      AddressFits(base, |w|, n - 1);
      WrittenWords(mem, base, w, n - 1, zero, a);
    }
  }

  /** memWrite then memRead gives back the data, whatever scans are answered with WAIT in between. */
  method WriteThenRead(jtag: Jtag, base: nat, data: seq<nat>, readdata: array<nat>)
    requires jtag.Idle() && base % 4 == 0 && base + 4 * |data| <= WORD && |data| > 0 && Fits(base, |data|)
    requires readdata.Length == |data| && forall k :: 0 <= k < |data| ==> data[k] < WORD
    modifies jtag, readdata
    ensures jtag.Idle() && readdata[..] == data
  {
    hide DapOk, Written, Fits, Address;
    ghost var mem := jtag.chip.dap.mem;
    jtag.MemWrite(base, data, |data|, false);
    var mismatch := jtag.MemRead(base, readdata, |data|, false);
    forall k | 0 <= k < |data|
      ensures readdata[k] == data[k]
    {
      AddressFits(base, |data|, k);
      WrittenWords(mem, base, data, |data|, false, base + 4 * k);
    }
  }
}
