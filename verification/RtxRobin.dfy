/** Round-robin: how many ticks a ready task waits for its turn. */
module RtxRobin {
  import opened Links
  import opened TaskLists
  import opened RtxOrder
  import opened Delays
  import opened RtxList
  import opened RtxSched
  import opened RtxPlaces
  import opened RtxRest
  import opened RtxSpec
  import opened RtxObjects
  import opened RtxFrames

  /** The length of a time slice in ticks; a 16-bit tout of zero means a full turn of the counter. */
  function Quantum(tout: nat): (q: nat) {
    if U16(tout) == 0 then 0x1_0000 else U16(tout)
  }

  /** Ticks until os_time reaches the switch time, modulo 16 bits. */
  function Distance(k: KState): (d: nat) {
    U16(k.robin.time - k.time)
  }

  /** Ticks until the running task's slice ends, counting the tick that ends it. */
  function Slice(k: KState): (n: nat) {
    if k.robin.task == k.c.run then Distance(k) + 1 else Quantum(k.robin.tout)
  }

  /** A slice in progress is never longer than a full one, and switch times are 16-bit. */
  predicate RobinOk(k: KState) {
    && k.robin.time < 0x1_0000
    && (k.robin.task != NULL ==> Distance(k) + 1 <= Quantum(k.robin.tout))
  }

  ghost function Ticks(k: KState, n: nat): (r: KState)
    decreases n
  {
    if n == 0 then k else Ticks(Do(k, SysTick), n - 1)
  }

  /** No task of a higher priority than p times out within n ticks. */
  ghost predicate Quiet(k: KState, n: nat, p: nat) {
    forall i :: 0 <= i < |k.c.d| && k.c.d[i].rem <= n ==> k.c.Prio(k.c.d[i].task) <= p
  }

  lemma RobinArith(r: Robin, head: Ptr, time: nat, time': nat)
    requires r.time < 0x1_0000 && head != NULL && time' == (time + 1) % 0x1_0000_0000 && time < 0x1_0000_0000
    requires r.task == head ==> U16(r.time - time) + 1 <= Quantum(r.tout)
    ensures var r' := NextRobin(r, head, time);
            var n := if r.task == head then U16(r.time - time) + 1 else Quantum(r.tout);
            && r'.time < 0x1_0000 && r'.tout == r.tout && n >= 1
            && (r'.task == NULL <==> n == 1)
            && (r'.task != NULL ==> r'.task == head && U16(r'.time - time') + 1 == n - 1)
  {
    hide U16;
    SliceStart(time, r.tout);
    Narrow(time + r.tout - 1);
    DistanceStep(U16(time + r.tout - 1), time, time');
    DistanceStep(r.time, time, time');
  }

  lemma Narrow(x: int)
    ensures U16(x) < 0x1_0000
  {
  }

  /** A tick brings the clock one nearer to the switch time a, until it is there. */
  lemma DistanceStep(a: nat, time: nat, time': nat)
    requires a < 0x1_0000 && time' == (time + 1) % 0x1_0000_0000 && time < 0x1_0000_0000
    ensures a == U16(time) <==> U16(a - time) == 0
    ensures a != U16(time) ==> U16(a - time') + 1 == U16(a - time)
  {
    var u, q := time % 0x1_0000, time / 0x1_0000;
    SameRemainder(a - u, -q);
    assert a - time == a - u + 0x1_0000 * -q;
    if a != u {
      SameRemainder(a - u - 1, -q);
      assert a - time - 1 == a - u - 1 + 0x1_0000 * -q;
      if time + 1 == 0x1_0000_0000 {
        SameRemainder(a - time - 1, 0x1_0000);
      }
    }
  }

  /** The distance with which a slice starts. */
  lemma SliceStart(time: nat, tout: nat)
    ensures U16(U16(time + tout - 1) - time) + 1 == Quantum(tout)
  {
    var x := time + tout - 1;
    SameRemainder(x - time, -(x / 0x1_0000));
    assert U16(x) - time == x - time + 0x1_0000 * -(x / 0x1_0000);
    var t, q := tout % 0x1_0000, tout / 0x1_0000;
    SameRemainder(t - 1, q);
    assert tout - 1 == t - 1 + 0x1_0000 * q;
  }

  /** pre is at the front of the ready list, and its tasks have priority p. */
  ghost predicate Leads(c: Core, pre: seq<Ptr>, p: nat) {
    pre <= c.Ready() && forall i :: 0 <= i < |pre| ==> c.Prio(pre[i]) == p
  }

  /** A task of priority at most p that becomes ready does not overtake pre. */
  lemma EnterBehind(prio: map<Ptr, nat>, s: seq<Ptr>, t: Ptr, pre: seq<Ptr>)
    requires pre <= s && forall i :: 0 <= i < |pre| ==> At(prio, pre[i], 0) >= At(prio, t, 0)
    ensures pre <= Enter(prio, s, t)
  {
    var i := InsertPos(prio, s, At(prio, t, 0));
    assert i < |s| ==> At(prio, s[i], 0) < At(prio, t, 0);
    assert forall j :: 0 <= j < |pre| ==> s[j] == pre[j];
  }

  /** Time-outs of tasks of priority at most p leave the front of the ready list as it is. */
  lemma {:induction false} ExpireBehind(c: Core, pre: seq<Ptr>, p: nat)
    requires Sched(c, {}, NULL) && Leads(c, pre, p)
    requires forall i :: 0 <= i < |c.d| && c.d[i].rem <= 1 ==> c.Prio(c.d[i].task) <= p
    ensures Leads(Expire(c), pre, p) && Expire(c).prio == c.prio && Expire(c).run == c.run
    ensures |Expire(c).d| <= |c.d| && Expire(c).d == c.d[|c.d| - |Expire(c).d|..]
    decreases |c.d|
  {
    hide Sched, Unlink, Enter;
    if c.d != [] && c.d[0].rem == 1 {
      var c1 := TimeUp(c);
      TimeUpKeeps(c, {}, NULL);
      TimeUpReady(c);
      EnterBehind(c.prio, c.Ready(), c.d[0].task, pre);
      ExpireBehind(c1, pre, p);
    }
  }

  lemma TimeUpReady(c: Core)
    requires Sched(c, {}, NULL) && c.d != []
    ensures TimeUp(c).Ready() == Enter(c.prio, c.Ready(), c.d[0].task)
    ensures TimeUp(c).prio == c.prio && TimeUp(c).run == c.run && TimeUp(c).d == c.d[1..]
  {
    hide Sorted, InOrder, NoDup;
    var t := c.d[0].task;
    assert Tasks(c.d)[0] == t;
    assert Placed(c, t);
    assert Unlink(c.g, t).lists[RDY] == c.g.lists[RDY];
  }

  /** What one tick does to the queue: x is the j-th ready task, of the running task's priority. */
  lemma TickQueue(k: KState, j: nat, n: nat)
    requires AtRest(k.c) && n >= 1
    requires j < |k.c.Ready()| && k.c.Prio(k.c.Ready()[j]) == k.c.Prio(k.c.run)
    requires Quiet(k, n, k.c.Prio(k.c.run))
    ensures var k', x, p := Do(k, SysTick), k.c.Ready()[j], k.c.Prio(k.c.run);
            && AtRest(k'.c) && Quiet(k', n - 1, p) && k'.c.prio == k.c.prio && k'.c.Prio(k'.c.run) == p
            && k'.robin == NextRobin(k.robin, k.c.run, k.time) && k'.time == (k.time + 1) % 0x1_0000_0000
            && if k'.robin.task != NULL then
                 k'.c.run == k.c.run && j < |k'.c.Ready()| && k'.c.Ready()[j] == x
               else if j > 0 then
                 j - 1 < |k'.c.Ready()| && k'.c.Ready()[j - 1] == x
               else k'.c.run == x
  {
    hide Sched, Settled, AtRest, Enter, Queue, Expire, Age, NextRobin, Rotate, ReadyAt, Tick;
    var run, p, s := k.c.run, k.c.Prio(k.c.run), k.c.Ready();
    var c0 := ReadyAt(k.c, 0, run);
    var r' := NextRobin(k.robin, run, k.time);
    FrontKeeps(k.c);
    FrontFields(k.c);
    EqualFront(k.c, j);
    var c1, pre := if r'.task == NULL then Rotate(c0) else c0, if r'.task == NULL then s[..j + 1] else [run] + s[..j + 1];
    if r'.task == NULL {
      RotateSched(c0);
      RotateFront(c0, s[..j + 1], p);
    } else {
      assert pre <= [run] + s;
    }
    ExpireBehind(c1, pre, p);
    TickSettles(k);
    CommitRests(Tick(k).c);
    TickOutcome(k, c1, pre, r');
    QuietNext(k, c1, n, p);
  }

  lemma RotateSched(c: Core)
    requires Sched(c, {}, NULL) && c.Ready() != []
    ensures Sched(Rotate(c), {}, NULL)
  {
    hide Sched;
    RotateKeeps(c);
  }

  lemma FrontFields(c: Core)
    requires AtRest(c)
    ensures var c0 := ReadyAt(c, 0, c.run);
            c0.prio == c.prio && c0.d == c.d && c0.run == c.run
    ensures c.run != NULL && forall i :: 0 <= i < |c.d| ==> c.d[i].rem >= 1
  {
  }

  /** What one tick does to the turn of the j-th ready task x of the running task's priority. */
  lemma TickTurn(k: KState, j: nat, n: nat)
    requires AtRest(k.c) && RobinOk(k) && k.time < 0x1_0000_0000 && n >= 1
    requires j < |k.c.Ready()| && k.c.Prio(k.c.Ready()[j]) == k.c.Prio(k.c.run)
    requires Quiet(k, n, k.c.Prio(k.c.run))
    ensures var k', x := Do(k, SysTick), k.c.Ready()[j];
            && AtRest(k'.c) && RobinOk(k') && k'.time < 0x1_0000_0000 && k'.robin.tout == k.robin.tout
            && Quiet(k', n - 1, k'.c.Prio(k'.c.run)) && k'.c.Prio(x) == k'.c.Prio(k'.c.run)
            && if Slice(k) > 1 then
                 j < |k'.c.Ready()| && k'.c.Ready()[j] == x && Slice(k') == Slice(k) - 1
               else if j > 0 then
                 j - 1 < |k'.c.Ready()| && k'.c.Ready()[j - 1] == x && Slice(k') == Quantum(k.robin.tout)
               else k'.c.run == x
  {
    hide AtRest, Quiet, Do, NextRobin, U16, Quantum;
    TickQueue(k, j, n);
    FrontFields(k.c);
    FrontFields(Do(k, SysTick).c);
    RobinArith(k.robin, k.c.run, k.time, Do(k, SysTick).time);
    QuantumBounds(k.robin.tout);
  }

  lemma QuantumBounds(tout: nat)
    ensures Quantum(tout) >= 1
  {
  }

  /** The ready tasks up to the j-th have the running task's priority. */
  lemma EqualFront(c: Core, j: nat)
    requires AtRest(c) && j < |c.Ready()| && c.Prio(c.Ready()[j]) == c.Prio(c.run)
    ensures forall i :: 0 <= i <= j ==> c.Prio(c.Ready()[i]) == c.Prio(c.run)
  {
    var s := c.Ready();
    assert Sorted(c.prio, c.g.lists[RDY]);
  }

  lemma RotateFront(c: Core, pre: seq<Ptr>, p: nat)
    requires c.Ready() != [] && pre <= c.Ready()[1..] && c.Prio(c.Ready()[0]) == p
    requires forall i :: 0 <= i < |pre| ==> c.Prio(pre[i]) == p
    ensures Leads(Rotate(c), pre, p) && Rotate(c).prio == c.prio && Rotate(c).d == c.d && Rotate(c).run == c.run
  {
    hide InsertPos;
    EnterBehind(c.prio, c.Ready()[1..], c.Ready()[0], pre);
    assert Rotate(c).Ready() == Enter(c.prio, c.Ready()[1..], c.Ready()[0]);
  }

  lemma TickOutcome(k: KState, c1: Core, pre: seq<Ptr>, r': Robin)
    requires pre != [] && ReadyAt(k.c, 0, k.c.run).Ready() == [k.c.run] + k.c.Ready()
    requires r' == NextRobin(k.robin, k.c.run, k.time)
    requires c1 == if r'.task == NULL then Rotate(ReadyAt(k.c, 0, k.c.run)) else ReadyAt(k.c, 0, k.c.run)
    requires pre <= Expire(c1).Ready()
    ensures var k' := Do(k, SysTick);
            && k'.c.run == pre[0] && pre[1..] <= k'.c.Ready() && k'.c.prio == Expire(c1).prio
            && k'.c.d == Age(Expire(c1).d) && k'.robin == r' && k'.time == (k.time + 1) % 0x1_0000_0000
  {
    hide Expire, Age, NextRobin, Rotate, ReadyAt;
  }

  lemma QuietNext(k: KState, c1: Core, n: nat, p: nat)
    requires n >= 1 && Quiet(k, n, p) && c1.d == k.c.d && c1.prio == k.c.prio
    requires |Expire(c1).d| <= |c1.d| && Expire(c1).d == c1.d[|c1.d| - |Expire(c1).d|..]
    requires Do(k, SysTick).c.d == Age(Expire(c1).d) && Do(k, SysTick).c.prio == c1.prio
    requires forall i :: 0 <= i < |k.c.d| ==> k.c.d[i].rem >= 1
    ensures Quiet(Do(k, SysTick), n - 1, p)
  {
    hide Expire, Do;
    var d, d1 := k.c.d, Expire(c1).d;
    QuietSuffix(d, d1, n, p, k.c.prio);
  }

  lemma QuietSuffix(d: seq<Delay>, d1: seq<Delay>, n: nat, p: nat, prio: map<Ptr, nat>)
    requires n >= 1 && |d1| <= |d| && d1 == d[|d| - |d1|..]
    requires forall i :: 0 <= i < |d| ==> d[i].rem >= 1 && (d[i].rem <= n ==> At(prio, d[i].task, 0) <= p)
    ensures forall i :: 0 <= i < |Age(d1)| && Age(d1)[i].rem <= n - 1 ==> At(prio, Age(d1)[i].task, 0) <= p
  {
    forall i | 0 <= i < |Age(d1)| && Age(d1)[i].rem <= n - 1
      ensures At(prio, Age(d1)[i].task, 0) <= p
    {
      assert d1[i] == d[|d| - |d1| + i];
    }
  }

  /**
   * The i-th ready task of the running task's priority (counting from 0) gets the processor after
   * exactly the rest of the current slice and i more slices, whatever the clock reads.
   */
  lemma {:induction false} TurnComes(k: KState, j: nat)
    requires AtRest(k.c) && RobinOk(k) && k.time < 0x1_0000_0000
    requires j < |k.c.Ready()| && k.c.Prio(k.c.Ready()[j]) == k.c.Prio(k.c.run)
    requires Quiet(k, Slice(k) + j * Quantum(k.robin.tout), k.c.Prio(k.c.run))
    ensures Ticks(k, Slice(k) + j * Quantum(k.robin.tout)).c.run == k.c.Ready()[j]
    ensures Slice(k) + j * Quantum(k.robin.tout) <= (j + 1) * Quantum(k.robin.tout)
    decreases Slice(k) + j * Quantum(k.robin.tout)
  {
    hide AtRest, Quiet, Do;
    var q, n, k' := Quantum(k.robin.tout), Slice(k) + j * Quantum(k.robin.tout), Do(k, SysTick);
    QuantumBounds(k.robin.tout);
    FrontFields(k.c);
    TickTurn(k, j, n);
    if Slice(k) > 1 {
      TurnComes(k', j);
    } else if j > 0 {
      assert Slice(k') + (j - 1) * q == j * q;
      TurnComes(k', j - 1);
    }
  }

  /** Slices stay within bounds over every call, so the turn bound applies at any point of a run. */
  lemma CallKeepsRobin(k: KState, a: Call)
    requires KInv(k) && Legal(k, a) && RobinOk(k) && k.time < 0x1_0000_0000
    ensures RobinOk(Do(k, a)) && Do(k, a).time < 0x1_0000_0000
  {
    hide AtRest, Objects, Do, NextRobin, U16, Quantum;
    if a.SysTick? {
      TickClock(k);
      FrontFields(k.c);
      RobinArith(k.robin, k.c.run, k.time, Do(k, a).time);
    } else {
      CallFrame(k, a);
    }
  }

  lemma TickClock(k: KState)
    requires AtRest(k.c)
    ensures var k' := Do(k, SysTick);
            k'.robin == NextRobin(k.robin, k.c.run, k.time) && k'.time == (k.time + 1) % 0x1_0000_0000
  {
    hide AtRest, DecDly, DispatchNext, NextRobin, ReadyAt, Rotate;
    FrontKeeps(k.c);
  }
}
