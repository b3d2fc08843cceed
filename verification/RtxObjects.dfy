/** The invariant of the whole kernel, kept by every call: no task waits for what it could have. */
module RtxObjects {
  import opened Links
  import opened TaskLists
  import opened RtxOrder
  import opened Delays
  import opened RtxList
  import opened RtxSched
  import opened RtxPlaces
  import opened RtxRest
  import opened RtxSpec
  import opened EventBits

  /** Waiters imply zero tokens. */
  ghost predicate SemOk(k: KState, h: Ptr) {
    && h in k.tokens && k.tokens[h] < 0x1_0000
    && (k.List(h) != [] ==> k.tokens[h] == 0)
  }

  /** A free mutex has no waiters, a taken one has an active owner. */
  ghost predicate MutOk(k: KState, m: Ptr) {
    && m in k.mut && k.mut[m].level < 0x1_0000
    && (k.mut[m].level == 0 ==> k.List(m) == [])
    && (k.mut[m].level > 0 ==> k.mut[m].owner in k.c.active)
  }

  predicate RingOk(b: Mailbox) {
    && b.size >= 1 && |b.msg| == b.size && b.first < b.size && b.last < b.size && b.count <= b.size
    && b.first == if b.last + b.count < b.size then b.last + b.count else b.last + b.count - b.size
  }

  /** Receivers wait only on an empty ring, senders only on a full one. */
  ghost predicate MbxOk(k: KState, m: Ptr) {
    && m in k.mbx && RingOk(k.mbx[m])
    && (k.List(m) != [] ==>
          (k.mbx[m].state == 1 && k.mbx[m].count == 0) || (k.mbx[m].state == 2 && k.mbx[m].count == k.mbx[m].size))
  }

  ghost predicate ObjectOk(k: KState, h: Ptr) {
    match At(k.c.kind, h, TCB)
    case SCB => SemOk(k, h)
    case MUCB => MutOk(k, h)
    case MCB => MbxOk(k, h)
    case _ => true
  }

  /** No task waits for event flags it already has. */
  ghost predicate FlagsOk(k: KState, t: Ptr) {
    && t in k.events && t in k.waits && t in k.msg && t in k.ret
    && (k.c.Live(t) ==> !Met(k.c.State(t), k.events[t], k.waits[t]))
  }

  ghost predicate Objects(k: KState) {
    && (forall h :: h in k.c.g.lists && h != RDY ==> ObjectOk(k, h))
    && (forall t :: t in k.c.g.tasks ==> FlagsOk(k, t))
  }

  ghost predicate KInv(k: KState) {
    AtRest(k.c) && Objects(k)
  }

  ghost predicate OwnsNothing(k: KState, t: Ptr) {
    forall m :: m in k.c.g.lists && m != RDY && At(k.c.kind, m, TCB) == MUCB && m in k.mut && k.mut[m].level > 0 ==>
      k.mut[m].owner != t
  }

  ghost predicate IsObject(k: KState, h: Ptr, ty: Kind) {
    h in k.c.g.lists && h != RDY && At(k.c.kind, h, TCB) == ty
  }

  ghost predicate RequestOk(k: KState, q: Request) {
    match q
    case SemReq(h) => IsObject(k, h, SCB)
    case EvtReq(t, _) => t in k.c.active
  }

  /** Calls that are also made before the kernel starts, while the idle task is the only one. */
  predicate StartsUp(a: Call) {
    a.Create? || a.InitSem? || a.InitMut? || a.InitMbx?
  }

  /** What the kernel expects of a call: objects of the right type, 16-bit time-outs, no call by the idle task but those that start the kernel up. */
  ghost predicate Legal(k: KState, a: Call) {
    && (!a.SysTick? && !a.PendSV? && !StartsUp(a) ==> k.c.run != k.c.idle)
    && match a
       case Delete(t) => OwnsNothing(k, if t == NULL then k.c.run else t)
       case Create(t, _) => t in k.c.g.tasks && !k.c.Live(t)
       case Wait(n) => n <= NO_TIMEOUT
       case InitSem(h, count) => IsObject(k, h, TCB) && count < 0x1_0000
       case InitMut(h) => IsObject(k, h, TCB)
       case InitMbx(h, size) => IsObject(k, h, TCB) && size >= 1
       case SendSem(h) => IsObject(k, h, SCB)
       case WaitSem(h, n) => IsObject(k, h, SCB) && n <= NO_TIMEOUT
       case DeleteSem(h) => IsObject(k, h, SCB)
       case WaitEvt(_, n, _) => n <= NO_TIMEOUT
       case WaitMut(m, n) =>
         && IsObject(k, m, MUCB) && n <= NO_TIMEOUT
         && (At(k.mut, m, FREE).owner == k.c.run && At(k.mut, m, FREE).level == 0xffff ==> k.List(m) == [])
       case ReleaseMut(m) => IsObject(k, m, MUCB)
       case DeleteMut(m) => IsObject(k, m, MUCB)
       case SendMbx(m, _, n) => IsObject(k, m, MCB) && n <= NO_TIMEOUT
       case WaitMbx(m, n) => IsObject(k, m, MCB) && n <= NO_TIMEOUT
       case PendSV(qs) => forall i :: 0 <= i < |qs| ==> RequestOk(k, qs[i])
       case _ => true
  }

  // ----- scheduling part

  lemma MutReleaseSettles(k: KState, m: Ptr)
    requires KInv(k) && IsObject(k, m, MUCB)
    ensures Settled(MutRelease(k, m).c)
  {
    hide Sched, Settled, Objects, HandTo, PreemptCheck, WakeFirst, HandOver;
    var mu := At(k.mut, m, FREE);
    SettledSched(k.c);
    if mu.level == 1 && mu.owner == k.c.run {
      LastReleaseSettles(k, m);
    }
  }

  lemma LastReleaseSettles(k: KState, m: Ptr)
    requires AtRest(k.c) && IsObject(k, m, MUCB) && At(k.mut, m, FREE).level == 1 && At(k.mut, m, FREE).owner == k.c.run
    ensures Settled(MutRelease(k, m).c)
  {
    hide Sched, Settled, HandTo, PreemptCheck, WakeFirst, MutRelease;
    SettledSched(k.c);
    var c := Lowered(k, m);
    LastReleaseCore(k, m);
    RunPrioKeeps(k.c, At(k.mut, m, FREE).prio);
    if c.List(m) == [] {
      PreemptCheckSettles(c);
    } else {
      HandOverSettles(c, m);
    }
  }

  /** The caller back at the priority it had before it took the mutex. */
  ghost function Lowered(k: KState, m: Ptr): (c: Core) {
    k.c.(prio := k.c.prio[k.c.run := At(k.mut, m, FREE).prio])
  }

  lemma LastReleaseCore(k: KState, m: Ptr)
    requires At(k.mut, m, FREE).level == 1 && At(k.mut, m, FREE).owner == k.c.run
    ensures var c := Lowered(k, m);
            MutRelease(k, m).c == if c.List(m) == [] then PreemptCheck(c) else HandTo(WakeFirst(c, m), c.List(m)[0])
  {
    hide HandTo, PreemptCheck, WakeFirst, HandOver;
    var c := Lowered(k, m);
    if c.List(m) != [] {
      HandOverCore(Return(k.(mut := k.mut[m := At(k.mut, m, FREE).(level := 0)]), OS_R_OK).(c := c), m);
    }
  }

  lemma HandOverCore(k: KState, m: Ptr)
    requires k.List(m) != []
    ensures HandOver(k, m).c == HandTo(WakeFirst(k.c, m), k.List(m)[0])
  {
    hide HandTo, WakeFirst;
  }

  /** The running task is on no list, so its priority can change freely. */
  lemma RunPrioKeeps(c: Core, p: nat)
    requires Sched(c, {}, c.run) && c.run != NULL
    ensures Sched(c.(prio := c.prio[c.run := p]), {}, c.run)
  {
    hide InOrder, Sorted;
    ReprioKeeps(c, {}, c.run, c.run, p);
    assert Placed(c, c.run);
    assert !OnList(c.g, c.run);
  }

  lemma MutWaitSettles(k: KState, m: Ptr, n: nat)
    requires KInv(k) && IsObject(k, m, MUCB) && n <= NO_TIMEOUT && k.c.run != k.c.idle
    ensures Settled(MutWait(k, m, n).c)
  {
    hide Places, Separate, InOrder, Typed, Sorted, Ordered, Block, QueueRun, Reprio;
    var run, mu := k.c.run, At(k.mut, m, FREE);
    assert ObjectOk(k, m);
    SettledSched(k.c);
    SchedHeads(k.c, {}, run);
    if mu.level != 0 && mu.owner != run && n != 0 {
      var c := if mu.prio < k.c.Prio(run) then Reprio(k.c, mu.owner, k.c.Prio(run)) else k.c;
      if mu.prio < k.c.Prio(run) {
        ReprioKeeps(k.c, {}, run, mu.owner, k.c.Prio(run));
        ReprioFields(k.c, mu.owner, k.c.Prio(run));
        RaiseTops(k.c, mu.owner);
        SchedHeads(c, {}, run);
      }
      assert Settled(c) && AtRest(c);
      ReprioLists(k.c, mu.owner, k.c.Prio(run));
      BlockSettles(c, m, n, WAIT_MUT);
    }
  }

  lemma ReprioLists(c: Core, t: Ptr, p: nat)
    requires AtRest(c)
    ensures forall h :: h in c.g.lists <==> h in Reprio(c, t, p).g.lists
    ensures Reprio(c, t, p).g.tasks == c.g.tasks
  {
  }

  /** Raising a task to the running task's priority leaves the running task on top. */
  lemma RaiseTops(c: Core, t: Ptr)
    requires AtRest(c) && t in c.active && t != c.run
    ensures Tops(Reprio(c, t, c.Prio(c.run)), c.run)
  {
    hide Places, Separate, InOrder, Typed, Sorted, Ordered;
    var c1 := Reprio(c, t, c.Prio(c.run));
    if c1.Ready() != [] {
      ReprioReady(c, t, c.Prio(c.run), 0);
      ReprioFields(c, t, c.Prio(c.run));
    }
  }

  /** A request handled by rt_pop_req, while the interrupted task sits on the ready list. */
  lemma PushKeeps(k: KState, q: Request)
    requires Sched(k.c, {}, NULL) && RequestOk(k, q) && k.c.Ready() != []
    ensures Sched(Push(k, q).c, {}, NULL) && Push(k, q).c.Ready() != []
  {
    hide Places, Separate, InOrder, Typed, Sorted, Ordered, Fields, DelayDrop;
    match q {
      case SemReq(h) =>
        if k.List(h) != [] {
          var t := k.List(h)[0];
          WakeFirstKeeps(k.c, {}, NULL, h);
          assert {} + {t} == {t} && {t} - {t} == {};
          ToReadyKeeps(WakeFirst(k.c, h), {t}, NULL, t);
        }
      case EvtReq(t, flags) =>
        if Completes(k, t, flags) {
          SignalKeeps(k.c, {}, NULL, t);
          assert {} + {t} == {t} && {t} - {t} == {};
          ToReadyKeeps(Signal(k, t, flags).c, {t}, NULL, t);
        }
    }
  }

  /** Requests stay valid while others are handled. */
  lemma PushTypes(k: KState, q: Request, q': Request)
    requires RequestOk(k, q) && RequestOk(k, q')
    ensures RequestOk(Push(k, q), q')
  {
    hide Ins, DelayDrop, ToReady;
    match q {
      case SemReq(h) =>
        if k.List(h) != [] {
          DispatchTouches(WakeFirst(k.c, h), k.List(h)[0]);
        }
      case EvtReq(t, flags) =>
        DispatchTouches(Signal(k, t, flags).c, t);
    }
  }

  lemma {:induction false} PushAllKeeps(k: KState, qs: seq<Request>)
    requires Sched(k.c, {}, NULL) && k.c.Ready() != [] && forall i :: 0 <= i < |qs| ==> RequestOk(k, qs[i])
    ensures Sched(PushAll(k, qs).c, {}, NULL) && PushAll(k, qs).c.Ready() != []
    decreases |qs|
  {
    hide Sched, RequestOk, Push;
    if qs != [] {
      PushKeeps(k, qs[0]);
      forall i | 0 <= i < |qs[1..]|
        ensures RequestOk(Push(k, qs[0]), qs[1..][i])
      {
        PushTypes(k, qs[0], qs[1..][i]);
      }
      PushAllKeeps(Push(k, qs[0]), qs[1..]);
    }
  }

  lemma PopReqSettles(k: KState, qs: seq<Request>)
    requires AtRest(k.c) && forall i :: 0 <= i < |qs| ==> RequestOk(k, qs[i])
    ensures Settled(PopReq(k, qs).c)
  {
    hide Sched, Settled, AtRest, PushAll, DispatchNext;
    var k0 := k.(c := ReadyAt(k.c, 0, k.c.run));
    FrontKeeps(k.c);
    forall i | 0 <= i < |qs|
      ensures RequestOk(k0, qs[i])
    {
      assert RequestOk(k, qs[i]);
    }
    PushAllKeeps(k0, qs);
    DispatchNextSettles(PushAll(k0, qs).c);
  }

  lemma TickSettles(k: KState)
    requires AtRest(k.c)
    ensures Settled(Tick(k).c)
  {
    hide Sched, Settled, AtRest, DecDly, DispatchNext, Queue, Pop;
    var c0 := ReadyAt(k.c, 0, k.c.run);
    FrontKeeps(k.c);
    var k1 := ChkRobin(k.(c := c0));
    RotateKeeps(c0);
    assert k1.c == c0 || k1.c == Rotate(c0);
    SchedHeads(c0, {}, NULL);
    RotateNonEmpty(c0);
    DecDlyKeeps(k1.c);
    DispatchNextSettles(DecDly(k1.c));
  }

  lemma RotateNonEmpty(c: Core)
    requires c.Ready() != []
    ensures Rotate(c).Ready() != []
  {
  }

  lemma SemSettles(k: KState, h: Ptr, n: nat)
    requires AtRest(k.c) && k.c.run != k.c.idle && IsObject(k, h, SCB) && n <= NO_TIMEOUT
    ensures Settled(SemSend(Return(k, OS_R_OK), h).c) && Settled(SemWait(k, h, n).c) && Settled(Discard(k, h).c)
  {
    hide Sched, Settled, Block, Dispatch, WakeFirst, PreemptCheck, WakeAll, QueueRun;
    SettledSched(k.c);
    SchedHeads(k.c, {}, k.c.run);
    WakeCall(k.c, h);
    BlockCall(k.c, h, n, WAIT_SEM);
    DiscardSettles(k.c, h);
  }

  lemma EvtSettles(k: KState, t: Ptr, flags: bv16, n: nat, and: bool)
    requires AtRest(k.c) && k.c.run != k.c.idle && n <= NO_TIMEOUT
    ensures Settled(EvtSet(k, t, flags).c) && Settled(EvtWait(k, flags, n, and).c) && Settled(EvtClr(k, t, flags).c)
  {
    hide Sched, Settled, Block, Dispatch, DelayDrop, HasAll, HasAny, Without, Merge, Common;
    if t in k.c.active && Completes(k, t, flags) {
      SignalSettles(k.c, t);
    }
    BlockCall(k.c, NULL, n, if and then WAIT_AND else WAIT_OR);
  }

  lemma MbxSettles(k: KState, m: Ptr, x: int, n: nat)
    requires AtRest(k.c) && k.c.run != k.c.idle && IsObject(k, m, MCB) && n <= NO_TIMEOUT
    ensures Settled(MbxSend(k, m, x, n).c) && Settled(MbxWait(k, m, n).c)
  {
    hide Sched, Settled, Block, Dispatch, WakeFirst, QueueRun, Store;
    SettledSched(k.c);
    SchedHeads(k.c, {}, k.c.run);
    WakeCall(k.c, m);
    BlockCall(k.c, m, n, WAIT_MBX);
  }

  /** A control block without type has no waiters, so it may get one. */
  lemma NewSettles(c: Core, h: Ptr, ty: Kind)
    requires AtRest(c) && h in c.g.lists && h != RDY && At(c.kind, h, TCB) == TCB
    ensures Settled(c.(kind := c.kind[h := ty]))
    ensures c.g.lists[h] == []
  {
    hide Sorted, InOrder, NoDup;
    var c' := c.(kind := c.kind[h := ty]);
    forall x | x in c.g.tasks
      ensures Placed(c', x)
    {
      assert Placed(c, x);
    }
  }

  /** A call on a semaphore, on event flags, on a mutex or on a mailbox. */
  predicate IsService(a: Call) {
    || a.SendSem? || a.WaitSem? || a.DeleteSem? || a.SetEvt? || a.WaitEvt? || a.ClrEvt?
    || a.WaitMut? || a.ReleaseMut? || a.DeleteMut? || a.SendMbx? || a.WaitMbx?
  }

  lemma ServiceSettles(k: KState, a: Call)
    requires KInv(k) && Legal(k, a) && IsService(a)
    ensures Settled(Apply(k, a).c)
  {
    hide Settled, Objects, AtRest, MutWait, MutRelease, MutDelete, SemSend, SemWait, Discard, EvtSet, EvtWait, EvtClr,
         MbxSend, MbxWait;
    match a {
      case SendSem(h) => SemSettles(k, h, 0);
      case WaitSem(h, n) => SemSettles(k, h, n);
      case DeleteSem(h) => SemSettles(k, h, 0);
      case SetEvt(t, flags) => EvtSettles(k, t, flags, 0, false);
      case WaitEvt(flags, n, and) => EvtSettles(k, NULL, flags, n, and);
      case ClrEvt(t, flags) => EvtSettles(k, t, flags, 0, false);
      case WaitMut(m, n) => MutWaitSettles(k, m, n);
      case ReleaseMut(m) => MutReleaseSettles(k, m);
      case DeleteMut(m) => MutDeleteSettles(k, m);
      case SendMbx(m, x, n) => MbxSettles(k, m, x, n);
      case WaitMbx(m, n) => MbxSettles(k, m, 0, n);
    }
  }

  lemma TaskAndTimeSettles(k: KState, a: Call)
    requires KInv(k) && Legal(k, a) && !IsService(a)
    ensures Settled(Apply(k, a).c)
  {
    hide Settled, Objects, AtRest, Block, TskPass, TskPrio, TskDelete, TskCreate, PopReq, Tick;
    match a {
      case Pass => TskPassSettles(k.c);
      case SetPrio(t, p) => TskPrioSettles(k.c, t, p);
      case Delete(t) => TskDeleteSettles(k.c, t);
      case Create(t, p) => TskCreateSettles(k.c, t, p);
      case Wait(n) => BlockCall(k.c, NULL, n, WAIT_DLY);
      case InitSem(h, _) => NewSettles(k.c, h, SCB);
      case InitMut(h) => NewSettles(k.c, h, MUCB);
      case InitMbx(h, _) => NewSettles(k.c, h, MCB);
      case SysTick => TickSettles(k);
      case PendSV(qs) => PopReqSettles(k, qs);
    }
  }

  /** Every call leaves the scheduler settled. */
  lemma CallSettles(k: KState, a: Call)
    requires KInv(k) && Legal(k, a)
    ensures Settled(Apply(k, a).c)
  {
    hide KInv, Legal, Settled, Apply;
    if IsService(a) {
      ServiceSettles(k, a);
    } else {
      TaskAndTimeSettles(k, a);
    }
  }

  lemma BlockCall(c: Core, h: Ptr, n: nat, st: TaskState)
    requires AtRest(c) && c.run != c.idle && n <= NO_TIMEOUT
    requires if h == NULL then st == WAIT_DLY || st == WAIT_OR || st == WAIT_AND
             else h in c.g.lists && h != RDY && WaitsIn(st, At(c.kind, h, TCB))
    ensures n != 0 || h == NULL ==> Settled(Block(if h == NULL then c else QueueRun(c, h), n, st))
  {
    hide Sched, Settled;
    if n != 0 {
      BlockSettles(c, h, n, st);
    }
  }

  lemma WakeCall(c: Core, h: Ptr)
    requires AtRest(c) && h in c.g.lists && h != RDY
    ensures c.List(h) != [] ==> Settled(Dispatch(WakeFirst(c, h), c.List(h)[0]))
  {
    hide Sched, Settled, AtRest, Dispatch, WakeFirst;
    if c.List(h) != [] {
      WakeSettles(c, h);
    }
  }

  lemma MutDeleteSettles(k: KState, m: Ptr)
    requires KInv(k) && IsObject(k, m, MUCB)
    ensures Settled(MutDelete(k, m).c)
  {
    hide Sched, Settled, Objects, PreemptCheck, WakeAll, Reprio;
    var mu := At(k.mut, m, FREE);
    SettledSched(k.c);
    assert mu.level != 0 ==> mu.owner in k.c.active by { OwnerActive(k, m); }
    var c := if mu.level != 0 then Reprio(k.c, mu.owner, mu.prio) else k.c;
    if mu.level != 0 {
      ActiveIsTask(k.c);
      ReprioKeeps(k.c, {}, k.c.run, mu.owner, mu.prio);
      ReprioFields(k.c, mu.owner, mu.prio);
      ReprioLists(k.c, mu.owner, mu.prio);
    }
    DiscardSettles(c, m);
  }

  lemma OwnerActive(k: KState, m: Ptr)
    requires Objects(k) && IsObject(k, m, MUCB)
    ensures m in k.mut && (k.mut[m].level != 0 ==> k.mut[m].owner in k.c.active)
  {
    assert ObjectOk(k, m);
  }

  lemma ActiveIsTask(c: Core)
    requires AtRest(c)
    ensures c.active <= c.g.tasks
  {
  }
}
