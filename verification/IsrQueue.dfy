/**
 * The queue that carries requests from interrupt handlers to PendSV: rt_inc_qi, rt_psq_enq and the loop
 * of rt_pop_req, one memory access at a time, under every nesting of interrupts.
 */
module IsrQueue {

  datatype Request = Request(id: int, arg: int)

  /**
   * Where a handler is inside rt_psq_enq. The accesses to count and first are exclusive loads and
   * stores; a store that fails goes back to its load. ticket numbers the reservations.
   */
  datatype Pc =
    | Start
    | CountLoaded(n: nat)
    | Counted
    | FirstLoaded(n: nat)
    | Reserved(idx: nat, ticket: nat)
    | IdWritten(idx: nat, ticket: nat)
    | Finished
    | Overflow

  datatype Frame = Frame(req: Request, pc: Pc)

  /** Where PendSV is inside rt_pop_req. */
  datatype Drain =
    | Idle
    | Check(idx: nat)
    | ReadId(idx: nat)
    | ReadArg(idx: nat, id: int)
    | Dec(idx: nat)
    | DecLoaded(idx: nat, n: nat)

  /**
   * os_psq, the handlers that are active (the last one runs, the others are interrupted), PendSV, and
   * the exclusive monitor. reserved, handled and done record the history: requests in reservation
   * order, requests handled, and how many times the loop has lowered count.
   */
  datatype State = State(
    size: nat, first: nat, last: nat, count: nat, ids: seq<int>, args: seq<int>,
    stack: seq<Frame>, drain: Drain, monitor: bool,
    reserved: seq<Request>, handled: seq<Request>, done: nat)

  /** The index of the n-th reservation. */
  function Slot(n: nat, size: nat): (i: nat)
    requires size > 0
    ensures i < size
  {
    n % size
  }

  function NextIndex(i: nat, size: nat): (r: nat) {
    if i + 1 == size then 0 else i + 1
  }

  lemma {:induction false} MulStep(a: nat, b: nat, d: nat)
    requires a < b
    ensures a * d + d <= b * d
    decreases b
  {
    assert b * d == (b - 1) * d + d;
    if a < b - 1 {
      MulStep(a, b - 1, d);
    }
  }

  lemma QuotientUnique(n: nat, d: nat, q: nat, r: nat)
    requires d > 0 && r < d && n == q * d + r
    ensures n % d == r
  {
    var q' := n / d;
    assert n == q' * d + n % d;
    if q < q' {
      MulStep(q, q', d);
    } else if q' < q {
      MulStep(q', q, d);
    }
  }

  lemma SlotNext(n: nat, size: nat)
    requires size > 0
    ensures Slot(n + 1, size) == NextIndex(Slot(n, size), size)
  {
    var q, r := n / size, n % size;
    assert n == q * size + r;
    if r + 1 == size {
      assert (q + 1) * size == q * size + size;
      QuotientUnique(n + 1, size, q + 1, 0);
    } else {
      QuotientUnique(n + 1, size, q, r + 1);
    }
  }

  /** Reservations less than size apart have different slots. */
  lemma SlotsDiffer(a: nat, b: nat, size: nat)
    requires a < b < a + size
    ensures Slot(a, size) != Slot(b, size)
  {
    var p, q := a / size, b / size;
    assert a == p * size + a % size && b == q * size + b % size;
    if q < p {
      MulStep(q, p, size);
    } else if p < q {
      MulStep(p, q, size);
    }
  }

  // ----- the steps

  function Top(s: State): (f: Frame)
    requires s.stack != []
  {
    s.stack[|s.stack| - 1]
  }

  function WithTop(s: State, pc: Pc): (r: State)
    requires s.stack != []
  {
    s.(stack := s.stack[|s.stack| - 1 := Top(s).(pc := pc)])
  }

  /** A handler that will queue req interrupts whatever runs; taking an exception clears the monitor. */
  function Interrupt(s: State, req: Request): (r: State) {
    s.(stack := s.stack + [Frame(req, Start)], monitor := false)
  }

  /** One access of the running handler; returning from an exception clears the monitor too. */
  function HandlerStep(s: State): (r: State)
    requires s.stack != []
  {
    match Top(s).pc
    case Start =>
      if s.count == s.size then WithTop(s, Overflow) else WithTop(s, CountLoaded(s.count)).(monitor := true)
    case CountLoaded(n) =>
      if s.monitor then WithTop(s, Counted).(count := n + 1, monitor := false) else WithTop(s, Start)
    case Counted => WithTop(s, FirstLoaded(s.first)).(monitor := true)
    case FirstLoaded(n) =>
      if s.monitor then
        WithTop(s, Reserved(n, |s.reserved|)).(first := NextIndex(n, s.size), monitor := false,
                                               reserved := s.reserved + [Top(s).req])
      else WithTop(s, Counted)
    case Reserved(i, k) =>
      if i < |s.ids| then WithTop(s, IdWritten(i, k)).(ids := s.ids[i := Top(s).req.id]) else s
    case IdWritten(i, k) =>
      if i < |s.args| then WithTop(s, Finished).(args := s.args[i := Top(s).req.arg]) else s
    case Finished => s.(stack := s.stack[..|s.stack| - 1], monitor := false)
    case Overflow => s.(stack := s.stack[..|s.stack| - 1], monitor := false)
  }

  /** One access of PendSV, which runs when no handler is active. */
  function DrainStep(s: State): (r: State) {
    match s.drain
    case Idle => s.(drain := Check(s.last))
    case Check(i) => if s.count == 0 then s.(last := i, drain := Idle) else s.(drain := ReadId(i))
    case ReadId(i) => if i < |s.ids| then s.(drain := ReadArg(i, s.ids[i])) else s
    case ReadArg(i, id) =>
      if i < |s.args| then s.(drain := Dec(NextIndex(i, s.size)), handled := s.handled + [Request(id, s.args[i])]) else s
    case Dec(i) => s.(drain := DecLoaded(i, s.count), monitor := true)
    case DecLoaded(i, n) =>
      if s.monitor && n > 0 then s.(drain := Check(i), count := n - 1, monitor := false, done := s.done + 1)
      else s.(drain := Dec(i))
  }

  datatype Action = Arrive(req: Request) | Run

  function Step(s: State, a: Action): (r: State) {
    match a
    case Arrive(req) => Interrupt(s, req)
    case Run => if s.stack != [] then HandlerStep(s) else DrainStep(s)
  }

  function Init(size: nat): (s: State) {
    State(size, 0, 0, 0, seq(size, _ => 0), seq(size, _ => 0), [], Idle, false, [], [], 0)
  }

  function After(s: State, acts: seq<Action>): (r: State)
    decreases |acts|
  {
    if acts == [] then s else After(Step(s, acts[0]), acts[1..])
  }

  // ----- the invariant

  /** The handler has raised count but has not taken an index yet. */
  predicate Between(pc: Pc) {
    pc.Counted? || pc.FirstLoaded?
  }

  /** The handler owns a slot that it has not filled yet. */
  predicate Filling(pc: Pc) {
    pc.Reserved? || pc.IdWritten?
  }

  function Betweens(stack: seq<Frame>): (n: nat) {
    if stack == [] then 0
    else Betweens(stack[..|stack| - 1]) + if Between(stack[|stack| - 1].pc) then 1 else 0
  }

  predicate Owns(f: Frame, k: nat) {
    Filling(f.pc) && f.pc.ticket == k
  }

  ghost predicate Owned(s: State, k: nat) {
    exists i {:trigger s.stack[i]} :: 0 <= i < |s.stack| && Owns(s.stack[i], k)
  }

  /** How many requests PendSV has taken out: one more than done between reading a slot and lowering count. */
  function Taken(s: State): (n: nat) {
    if s.drain.Dec? || s.drain.DecLoaded? then s.done + 1 else s.done
  }

  ghost predicate Counts(s: State) {
    && 1 <= s.size <= 255 && |s.ids| == s.size && |s.args| == s.size
    && s.done <= |s.reserved| && Taken(s) <= |s.reserved|
    && s.first == Slot(|s.reserved|, s.size)
    && s.count == |s.reserved| - s.done + Betweens(s.stack) && s.count <= s.size
  }

  /** A filling handler holds its own ticket, still to be taken out, and no other handler has it. */
  ghost predicate FrameOk(s: State, i: nat)
    requires i < |s.stack| && s.size > 0
  {
    var f := s.stack[i];
    Filling(f.pc) ==>
      && Taken(s) <= f.pc.ticket < |s.reserved| && f.pc.idx == Slot(f.pc.ticket, s.size)
      && s.reserved[f.pc.ticket] == f.req
      && (f.pc.IdWritten? && f.pc.idx < |s.ids| ==> s.ids[f.pc.idx] == f.req.id)
      && forall j :: i < j < |s.stack| ==> !Owns(s.stack[j], f.pc.ticket)
  }

  ghost predicate Frames(s: State)
    requires s.size > 0
  {
    forall i {:trigger s.stack[i]} :: 0 <= i < |s.stack| ==> FrameOk(s, i)
  }

  /** Slot k of the queue holds what its handler put there. */
  ghost predicate Filled(s: State, k: nat)
    requires s.size > 0 && k < |s.reserved|
  {
    var i := Slot(k, s.size);
    i < |s.ids| && i < |s.args| && s.ids[i] == s.reserved[k].id && s.args[i] == s.reserved[k].arg
  }

  /** Every slot waiting to be taken out is filled, or a handler is filling it. */
  ghost predicate Slots(s: State)
    requires s.size > 0
  {
    forall k :: Taken(s) <= k < |s.reserved| && !Owned(s, k) ==> Filled(s, k)
  }

  ghost predicate DrainOk(s: State)
    requires s.size > 0 && Taken(s) <= |s.reserved|
  {
    && s.handled == s.reserved[..Taken(s)]
    && match s.drain
       case Idle => s.last == Slot(s.done, s.size)
       case Check(i) => i == Slot(s.done, s.size)
       case ReadId(i) => i == Slot(s.done, s.size) && s.done < |s.reserved| && !Owned(s, s.done)
       case ReadArg(i, id) =>
         i == Slot(s.done, s.size) && s.done < |s.reserved| && !Owned(s, s.done) && id == s.reserved[s.done].id
       case Dec(i) => i == Slot(s.done + 1, s.size)
       case DecLoaded(i, n) => i == Slot(s.done + 1, s.size)
  }

  /** A set monitor means that nothing has changed since the running context's exclusive load. */
  ghost predicate MonitorOk(s: State) {
    s.monitor ==>
      if s.stack != [] then
        match Top(s).pc
        case CountLoaded(n) => n == s.count && n < s.size
        case FirstLoaded(n) => n == s.first
        case _ => false
      else s.drain.DecLoaded? && s.drain.n == s.count
  }

  ghost predicate Inv(s: State) {
    Counts(s) && Frames(s) && Slots(s) && DrainOk(s) && MonitorOk(s)
  }

  // ----- every step keeps the invariant

  lemma InitHolds(size: nat)
    requires 1 <= size <= 255
    ensures Inv(Init(size))
  {
  }

  /** A new handler owns nothing. */
  lemma ArriveKeeps(s: State, req: Request)
    requires Inv(s)
    ensures Inv(Interrupt(s, req))
  {
    hide Slot;
    var s' := Interrupt(s, req);
    assert s'.stack[..|s'.stack| - 1] == s.stack;
    forall i | 0 <= i < |s'.stack|
      ensures FrameOk(s', i)
    {
      if i < |s.stack| {
        assert s'.stack[i] == s.stack[i] && FrameOk(s, i);
      }
    }
    forall k
      ensures Owned(s', k) <==> Owned(s, k)
    {
      SameOwners(s, s', k);
    }
    assert forall k :: Taken(s) <= k < |s.reserved| && Filled(s, k) ==> Filled(s', k);
  }

  lemma SameOwners(s: State, s': State, k: nat)
    requires |s'.stack| == |s.stack| + 1 && s'.stack[..|s.stack|] == s.stack && !Filling(Top(s').pc)
    ensures Owned(s', k) <==> Owned(s, k)
  {
    assert forall i {:trigger s.stack[i]} :: 0 <= i < |s.stack| ==> s'.stack[i] == s.stack[i];
    if Owned(s, k) {
      var i :| 0 <= i < |s.stack| && Owns(s.stack[i], k);
      assert Owns(s'.stack[i], k);
    }
    if Owned(s', k) {
      var i :| 0 <= i < |s'.stack| && Owns(s'.stack[i], k);
      assert Owns(s.stack[i], k);
    }
  }

  /** A handler returns. */
  lemma ReturnKeeps(s: State)
    requires Inv(s) && s.stack != [] && (Top(s).pc.Finished? || Top(s).pc.Overflow?)
    ensures Inv(HandlerStep(s))
  {
    hide Slot;
    var s' := HandlerStep(s);
    assert s.stack[..|s'.stack|] == s'.stack;
    forall i | 0 <= i < |s'.stack|
      ensures FrameOk(s', i)
    {
      assert s'.stack[i] == s.stack[i] && FrameOk(s, i);
    }
    forall k
      ensures Owned(s', k) <==> Owned(s, k)
    {
      SameOwners(s', s, k);
    }
    assert forall k :: Taken(s) <= k < |s.reserved| && Filled(s, k) ==> Filled(s', k);
  }

  /** The running handler's pc changes; who owns what among the others stays. */
  lemma OthersOwn(s: State, pc: Pc, k: nat)
    requires s.stack != []
    ensures var s' := WithTop(s, pc);
            (Owned(s', k) || Owns(Top(s), k)) <==> (Owned(s, k) || Owns(Top(s'), k))
    ensures var s' := WithTop(s, pc); Owns(Top(s'), k) ==> Owned(s', k)
    ensures Owns(Top(s), k) ==> Owned(s, k)
  {
    var s' := WithTop(s, pc);
    var n := |s.stack| - 1;
    assert forall i {:trigger s.stack[i]} {:trigger s'.stack[i]} :: 0 <= i < n ==> s'.stack[i] == s.stack[i];
    assert Owns(s'.stack[n], k) == Owns(Top(s'), k) && Owns(s.stack[n], k) == Owns(Top(s), k);
    if Owned(s, k) && !Owns(Top(s), k) {
      var i :| 0 <= i < |s.stack| && Owns(s.stack[i], k);
      assert Owns(s'.stack[i], k);
    }
    if Owned(s', k) && !Owns(Top(s'), k) {
      var i :| 0 <= i < |s'.stack| && Owns(s'.stack[i], k);
      assert Owns(s.stack[i], k);
    }
  }

  lemma BetweensTop(s: State, pc: Pc)
    requires s.stack != []
    ensures Betweens(WithTop(s, pc).stack) ==
            Betweens(s.stack) - (if Between(Top(s).pc) then 1 else 0) + if Between(pc) then 1 else 0
  {
    var s' := WithTop(s, pc);
    assert s'.stack[..|s.stack| - 1] == s.stack[..|s.stack| - 1];
  }

  /** Frames below the top keep their part of the invariant. */
  lemma LowerFrames(s: State, s': State, i: nat)
    requires s.stack != [] && i < |s.stack| - 1 && s.size > 0 && FrameOk(s, i)
    requires |s'.stack| == |s.stack| && s'.stack[..|s.stack| - 1] == s.stack[..|s.stack| - 1] && s'.size == s.size
    requires Taken(s') == Taken(s) && s.reserved <= s'.reserved
    requires Filling(s.stack[i].pc) ==>
               && !Owns(Top(s'), s.stack[i].pc.ticket)
               && (s.stack[i].pc.IdWritten? && s.stack[i].pc.idx < |s'.ids| ==>
                     s.stack[i].pc.idx < |s.ids| && s'.ids[s.stack[i].pc.idx] == s.ids[s.stack[i].pc.idx])
    ensures FrameOk(s', i)
  {
    hide Slot;
    assert forall j :: 0 <= j < |s.stack| - 1 ==> s'.stack[j] == s'.stack[..|s.stack| - 1][j] == s.stack[j];
  }

  /** Steps of the running handler that neither reserve nor fill a slot. */
  lemma CountingKeeps(s: State)
    requires Inv(s) && s.stack != []
    requires Top(s).pc.Start? || Top(s).pc.CountLoaded? || Top(s).pc.Counted? || (Top(s).pc.FirstLoaded? && !s.monitor)
    ensures Inv(HandlerStep(s))
  {
    hide Slot, FrameOk, Filled, Owned;
    var s' := HandlerStep(s);
    BetweensTop(s, Top(s').pc);
    forall i | 0 <= i < |s'.stack|
      ensures FrameOk(s', i)
    {
      if i < |s.stack| - 1 {
        assert FrameOk(s, i) by { var _ := s.stack[i]; }
        LowerFrames(s, s', i);
      } else {
        NotFilling(s', i);
      }
    }
    forall k: nat
      ensures Owned(s', k) <==> Owned(s, k)
    {
      OwnersByStack(s', WithTop(s, Top(s').pc), k);
      OthersOwn(s, Top(s').pc, k);
    }
    forall k | Taken(s) <= k < |s.reserved| && Filled(s, k)
      ensures Filled(s', k)
    {
      SameSlots(s, s', k);
    }
  }

  lemma NotFilling(s: State, i: nat)
    requires i < |s.stack| && s.size > 0 && !Filling(s.stack[i].pc)
    ensures FrameOk(s, i)
  {
  }

  lemma OwnersByStack(s: State, s': State, k: nat)
    requires s.stack == s'.stack
    ensures Owned(s, k) == Owned(s', k)
  {
  }

  lemma SameSlots(s: State, s': State, k: nat)
    requires s.size > 0 && k < |s.reserved| && s.reserved <= s'.reserved && Filled(s, k)
    requires s'.size == s.size && s'.ids == s.ids && s'.args == s.args
    ensures Filled(s', k)
  {
    hide Slot;
  }

  /** The index is taken: the reservation gets the next number. */
  lemma ReserveKeeps(s: State)
    requires Inv(s) && s.stack != [] && Top(s).pc.FirstLoaded? && s.monitor
    ensures Inv(HandlerStep(s))
  {
    hide Slot, FrameOk, Filled, Owned;
    var s', n := HandlerStep(s), |s.reserved|;
    BetweensTop(s, Top(s').pc);
    SlotNext(n, s.size);
    forall i | 0 <= i < |s'.stack|
      ensures FrameOk(s', i)
    {
      if i < |s.stack| - 1 {
        assert FrameOk(s, i) by { var _ := s.stack[i]; }
        TicketBelow(s, i);
        LowerFrames(s, s', i);
      } else {
        TopReserved(s);
      }
    }
    forall k: nat
      ensures k < n ==> (Owned(s', k) <==> Owned(s, k))
      ensures k == n ==> Owned(s', k)
    {
      OwnersByStack(s', WithTop(s, Top(s').pc), k);
      OthersOwn(s, Top(s').pc, k);
    }
    forall k | Taken(s) <= k < |s.reserved| && Filled(s, k)
      ensures Filled(s', k)
    {
      SameSlots(s, s', k);
    }
    assert s'.reserved[..Taken(s)] == s.reserved[..Taken(s)];
  }

  lemma TicketBelow(s: State, i: nat)
    requires i < |s.stack| && s.size > 0 && FrameOk(s, i)
    ensures Filling(s.stack[i].pc) ==> Taken(s) <= s.stack[i].pc.ticket < |s.reserved|
  {
  }

  lemma TopReserved(s: State)
    requires Counts(s) && s.stack != [] && Top(s).pc == FirstLoaded(s.first) && s.monitor && Taken(s) <= |s.reserved|
    ensures FrameOk(HandlerStep(s), |s.stack| - 1)
  {
    hide Slot;
  }

  /** A slot in use other than ticket k's is a different one. */
  lemma WindowApart(s: State, k: nat, m: nat)
    requires Counts(s) && s.done <= k < |s.reserved| && s.done <= m < |s.reserved| && k != m
    ensures Slot(k, s.size) != Slot(m, s.size)
  {
    hide Slot;
    if k < m {
      SlotsDiffer(k, m, s.size);
    } else {
      SlotsDiffer(m, k, s.size);
    }
  }

  lemma TopFrame(s: State)
    requires Inv(s) && s.stack != []
    ensures FrameOk(s, |s.stack| - 1)
  {
    var _ := s.stack[|s.stack| - 1];
  }

  /** No two handlers fill the same slot. */
  lemma DistinctTickets(s: State, i: nat)
    requires Inv(s) && s.stack != [] && i < |s.stack| - 1 && Filling(s.stack[i].pc) && Filling(Top(s).pc)
    ensures s.stack[i].pc.ticket != Top(s).pc.ticket && s.stack[i].pc.idx != Top(s).pc.idx
  {
    hide Slot;
    assert FrameOk(s, i) by { var _ := s.stack[i]; }
    TopFrame(s);
    assert !Owns(s.stack[|s.stack| - 1], s.stack[i].pc.ticket);
    WindowApart(s, s.stack[i].pc.ticket, Top(s).pc.ticket);
  }

  /** The first half of the slot is written. */
  lemma WriteIdKeeps(s: State)
    requires Inv(s) && s.stack != [] && Top(s).pc.Reserved?
    ensures Inv(HandlerStep(s))
  {
    hide Slot, FrameOk, Filled, Owned;
    var s', k0 := HandlerStep(s), Top(s).pc.ticket;
    TopFrame(s);
    TopFacts(s);
    BetweensTop(s, Top(s').pc);
    forall i | 0 <= i < |s'.stack|
      ensures FrameOk(s', i)
    {
      if i < |s.stack| - 1 {
        assert FrameOk(s, i) by { var _ := s.stack[i]; }
        if Filling(s.stack[i].pc) {
          DistinctTickets(s, i);
        }
        LowerFrames(s, s', i);
      } else {
        TopWritten(s);
      }
    }
    forall k: nat
      ensures Owned(s', k) <==> Owned(s, k)
    {
      OwnersByStack(s', WithTop(s, Top(s').pc), k);
      OthersOwn(s, Top(s').pc, k);
    }
    forall k | Taken(s) <= k < |s.reserved| && !Owned(s, k)
      ensures Filled(s', k)
    {
      OthersOwn(s, Top(s').pc, k0);
      WindowApart(s, k, k0);
      OtherSlot(s, s', k, k0);
    }
  }

  lemma TopFacts(s: State)
    requires s.stack != [] && s.size > 0 && FrameOk(s, |s.stack| - 1) && Filling(Top(s).pc)
    ensures var pc := Top(s).pc;
            && Taken(s) <= pc.ticket < |s.reserved| && pc.idx == Slot(pc.ticket, s.size)
            && s.reserved[pc.ticket] == Top(s).req && s.done <= Taken(s)
            && (pc.IdWritten? && pc.idx < |s.ids| ==> s.ids[pc.idx] == Top(s).req.id)
  {
  }

  lemma TopWritten(s: State)
    requires Counts(s) && s.stack != [] && Top(s).pc.Reserved? && FrameOk(s, |s.stack| - 1)
    ensures FrameOk(HandlerStep(s), |s.stack| - 1)
  {
    hide Slot;
  }

  lemma OtherSlot(s: State, s': State, k: nat, k0: nat)
    requires s.size > 0 && k < |s.reserved| && Filled(s, k) && s'.reserved == s.reserved && s'.size == s.size
    requires |s'.ids| == |s.ids| && |s'.args| == |s.args| && Slot(k, s.size) != Slot(k0, s.size)
    requires forall i :: 0 <= i < |s.ids| && i != Slot(k0, s.size) ==> s'.ids[i] == s.ids[i]
    requires forall i :: 0 <= i < |s.args| && i != Slot(k0, s.size) ==> s'.args[i] == s.args[i]
    ensures Filled(s', k)
  {
    hide Slot;
  }

  /** The second half is written: the slot is filled. */
  lemma WriteArgKeeps(s: State)
    requires Inv(s) && s.stack != [] && Top(s).pc.IdWritten?
    ensures Inv(HandlerStep(s))
  {
    hide Slot, FrameOk, Filled, Owned;
    var s', k0 := HandlerStep(s), Top(s).pc.ticket;
    TopFrame(s);
    TopFacts(s);
    BetweensTop(s, Top(s').pc);
    forall i | 0 <= i < |s'.stack|
      ensures FrameOk(s', i)
    {
      if i < |s.stack| - 1 {
        assert FrameOk(s, i) by { var _ := s.stack[i]; }
        LowerFrames(s, s', i);
      } else {
        NotFilling(s', i);
      }
    }
    forall k: nat
      ensures k != k0 ==> (Owned(s', k) <==> Owned(s, k))
      ensures Owned(s', k) ==> Owned(s, k)
    {
      OwnersByStack(s', WithTop(s, Top(s').pc), k);
      OthersOwn(s, Top(s').pc, k);
    }
    forall k | Taken(s) <= k < |s.reserved| && !Owned(s', k)
      ensures Filled(s', k)
    {
      if k == k0 {
        NowFilled(s, s', k);
      } else {
        WindowApart(s, k, k0);
        OtherSlot(s, s', k, k0);
      }
    }
  }

  lemma NowFilled(s: State, s': State, k: nat)
    requires s.size > 0 && k < |s.reserved| && s'.reserved == s.reserved && s'.size == s.size
    requires |s.ids| == s.size && |s'.ids| == s.size && |s.args| == s.size && |s'.args| == s.size
    requires s'.ids == s.ids && s.ids[Slot(k, s.size)] == s.reserved[k].id
    requires s'.args == s.args[Slot(k, s.size) := s.reserved[k].arg]
    ensures Filled(s', k)
  {
    hide Slot;
  }

  lemma HandlerKeeps(s: State)
    requires Inv(s) && s.stack != []
    ensures Inv(HandlerStep(s))
  {
    hide Inv, HandlerStep;
    match Top(s).pc {
      case Reserved(_, _) => WriteIdKeeps(s);
      case IdWritten(_, _) => WriteArgKeeps(s);
      case Finished => ReturnKeeps(s);
      case Overflow => ReturnKeeps(s);
      case FirstLoaded(_) =>
        if s.monitor {
          ReserveKeeps(s);
        } else {
          CountingKeeps(s);
        }
      case _ => CountingKeeps(s);
    }
  }

  /** PendSV reads only slots that are filled, and takes out the requests in reservation order. */
  lemma DrainKeeps(s: State)
    requires Inv(s) && s.stack == []
    ensures Inv(DrainStep(s))
  {
    hide Slot;
    var s' := DrainStep(s);
    assert !Owned(s, s.done);
    SlotNext(s.done, s.size);
    assert s.drain.ReadId? || s.drain.ReadArg? ==> Filled(s, s.done);
    assert s.done < |s.reserved| ==> s.reserved[..s.done + 1] == s.reserved[..s.done] + [s.reserved[s.done]];
    forall k | Taken(s') <= k < |s.reserved|
      ensures Filled(s', k)
    {
      assert !Owned(s, k) && Filled(s, k);
    }
  }

  lemma StepKeeps(s: State, a: Action)
    requires Inv(s)
    ensures Inv(Step(s, a))
  {
    hide Inv, HandlerStep, DrainStep, Interrupt;
    match a {
      case Arrive(req) => ArriveKeeps(s, req);
      case Run =>
        if s.stack != [] {
          HandlerKeeps(s);
        } else {
          DrainKeeps(s);
        }
    }
  }

  lemma {:induction false} AfterKeeps(s: State, acts: seq<Action>)
    requires Inv(s)
    ensures Inv(After(s, acts))
    decreases |acts|
  {
    hide Inv, Step;
    if acts != [] {
      StepKeeps(s, acts[0]);
      AfterKeeps(Step(s, acts[0]), acts[1..]);
    }
  }

  /**
   * In every run: count never exceeds size; the requests handled are the first ones reserved, each once,
   * in order; handlers that are still filling slots fill different ones, and PendSV reads none of those;
   * and when nothing is in progress and the queue is empty, everything reserved has been handled.
   */
  lemma QueueIsFifo(size: nat, acts: seq<Action>)
    requires 1 <= size <= 255
    ensures var s := After(Init(size), acts);
            && s.size == size && s.count <= size && s.handled <= s.reserved
            && (forall i, j {:trigger s.stack[i], s.stack[j]} :: 0 <= i < j < |s.stack| && Filling(s.stack[i].pc) && Filling(s.stack[j].pc) ==>
                  s.stack[i].pc.idx != s.stack[j].pc.idx)
            && (s.stack == [] && (s.drain.ReadId? || s.drain.ReadArg?) ==>
                  |s.handled| < |s.reserved| && Filled(s, |s.handled|) && s.drain.idx == Slot(|s.handled|, s.size))
            && (s.stack == [] && s.drain == Idle && s.count == 0 ==> s.handled == s.reserved)
  {
    hide Inv, Slot;
    var s := After(Init(size), acts);
    InitHolds(size);
    AfterKeeps(Init(size), acts);
    SizeStays(Init(size), acts);
    Outcome(s);
    forall i, j | 0 <= i < j < |s.stack| && Filling(s.stack[i].pc) && Filling(s.stack[j].pc)
      ensures s.stack[i].pc.idx != s.stack[j].pc.idx
    {
      TwoFillers(s, i, j);
    }
  }

  lemma Outcome(s: State)
    requires Inv(s)
    ensures s.size > 0 && s.count <= s.size && s.handled <= s.reserved
    ensures s.stack == [] && (s.drain.ReadId? || s.drain.ReadArg?) ==>
              |s.handled| < |s.reserved| && Filled(s, |s.handled|) && s.drain.idx == Slot(|s.handled|, s.size)
    ensures s.stack == [] && s.drain == Idle && s.count == 0 ==> s.handled == s.reserved
  {
    hide Slot;
    assert s.stack == [] ==> !Owned(s, s.done);
  }

  lemma TwoFillers(s: State, i: nat, j: nat)
    requires Inv(s) && i < j < |s.stack| && Filling(s.stack[i].pc) && Filling(s.stack[j].pc)
    ensures s.stack[i].pc.idx != s.stack[j].pc.idx
  {
    hide Slot;
    assert FrameOk(s, i) by { var _ := s.stack[i]; }
    assert FrameOk(s, j) by { var _ := s.stack[j]; }
    assert !Owns(s.stack[j], s.stack[i].pc.ticket);
    WindowApart(s, s.stack[i].pc.ticket, s.stack[j].pc.ticket);
  }

  lemma {:induction false} SizeStays(s: State, acts: seq<Action>)
    ensures After(s, acts).size == s.size
    decreases |acts|
  {
    if acts != [] {
      SizeStays(Step(s, acts[0]), acts[1..]);
    }
  }
}
