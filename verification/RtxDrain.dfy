/** Requests that outlive their target: what draining them does, and exactly when it still equals the calls. */
module RtxDrain {
  import opened Links
  import opened TaskLists
  import opened RtxOrder
  import opened Delays
  import opened RtxList
  import opened RtxSched
  import opened RtxPlaces
  import opened RtxRest
  import opened RtxSpec
  import opened RtxObjects
  import opened RtxIsr
  import opened RtxCounts

  /** A request for a task or a semaphore that was there when an interrupt handler queued it. */
  ghost predicate Queueable(k: KState, q: Request) {
    match q
    case SemReq(h) => h in k.c.g.lists && h != RDY && At(k.c.kind, h, TCB) != HCB
    case EvtReq(t, _) => t in k.c.g.tasks && t != k.c.idle
  }

  /** The memory after a drain, unless os_error has stopped the system. */
  datatype Drained = Drained(k: KState) | Halted

  /** The request is a release of what is no semaphore any more. */
  ghost predicate Stale(k: KState, q: Request) {
    q.SemReq? && At(k.c.kind, q.sem, TCB) != SCB
  }

  /**
   * The second byte of a control block without a type, taken for the state of a task: it is 0 unless the
   * block was a mutex, whose saved priority was there.
   */
  ghost function StateByte(k: KState, h: Ptr): (st: TaskState) {
    var b := At(k.mut, h, FREE).prio;
    if b == 5 then WAIT_OR else if b == 6 then WAIT_AND else INACTIVE
  }

  /** It looks like that of a task whose wait is complete; events and waits are what memory holds at their offsets. */
  ghost predicate LooksWaiting(k: KState, h: Ptr) {
    Satisfies(StateByte(k, h), At(k.events, h, 0), At(k.waits, h, 0))
  }

  /** rt_evt_psh makes such a block ready, as if it were a task. */
  ghost function AsTask(k: KState, h: Ptr): (r: KState) {
    EvtPsh(k.(c := k.c.(state := k.c.state[h := StateByte(k, h)])), h, 0).(mut := k.mut[h := At(k.mut, h, FREE).(prio := 1)])
  }

  /** rt_sem_psh on a mutex, whose level is where a semaphore has its tokens. */
  ghost function MutPsh(k: KState, h: Ptr): (r: KState) {
    var mu := At(k.mut, h, FREE);
    if k.List(h) != [] then WakeReady(k, h, Val(1)) else k.(mut := k.mut[h := mu.(level := U16(mu.level + 1))])
  }

  /** rt_mbx_psh */
  ghost function MbxPsh(k: KState, h: Ptr, x: int): (r: Drained) {
    var b := At(k.mbx, h, NO_MAILBOX);
    if k.List(h) != [] then
      if b.state == 2 then
        var b' := Store(b, At(k.msg, k.List(h)[0], 0)).(count := U16(b.count + 1));
        Drained(WakeReady(k.(mbx := k.mbx[h := b']), h, Val(0)))
      else if b.state == 1 then Drained(WakeReady(k, h, Message(x)))
      else Drained(k)
    else if b.count < b.size then Drained(k.(mbx := k.mbx[h := Store(b, x).(count := b.count + 1)]))
    else Halted
  }

  /** One pass of the loop in rt_pop_req, which goes by the type that the block has now; a release carries 0. */
  ghost function DrainOne(k: KState, q: Request): (r: Drained) {
    if !Stale(k, q) then Drained(Push(k, q))
    else
      match At(k.c.kind, q.sem, TCB)
      case TCB => Drained(if LooksWaiting(k, q.sem) then AsTask(k, q.sem) else k)
      case MCB => MbxPsh(k, q.sem, 0)
      case _ => Drained(MutPsh(k, q.sem))
  }

  /** The loop of rt_pop_req on any requests. */
  ghost function PushAny(k: KState, qs: seq<Request>): (r: Drained)
    decreases |qs|
  {
    if qs == [] then Drained(k)
    else
      match DrainOne(k, qs[0])
      case Drained(k1) => PushAny(k1, qs[1..])
      case Halted => Halted
  }

  /** rt_pop_req on any requests, and the context switch. */
  ghost function DrainAny(k: KState, qs: seq<Request>): (r: Drained) {
    match PushAny(k.(c := ReadyAt(k.c, 0, k.c.run)), qs)
    case Drained(k1) => Drained(k1.(c := Commit(DispatchNext(k1.c))))
    case Halted => Halted
  }

  /** The call that a request stands for, made by a task: it is refused if its target is gone. */
  ghost function CallAny(k: KState, q: Request): (r: KState) {
    if Stale(k, q) then k else ThreadStep(k, q)
  }

  ghost function CallAll(k: KState, qs: seq<Request>): (r: KState)
    decreases |qs|
  {
    if qs == [] then k else CallAll(CallAny(k, qs[0]), qs[1..])
  }

  /** Setting flags makes no difference to t: they are set, and t does not wait for them. */
  ghost predicate NoEffect(k: KState, t: Ptr, flags: bv16) {
    Merge(At(k.events, t, 0), flags) == At(k.events, t, 0) && !Completes(k, t, flags)
  }

  /**
   * A request of the queue qs that makes no difference: its target is still there; or the flags change nothing; or the
   * block has no type now and does not look like a waiting task; or it is a mutex without waiters that 65536
   * requests each bring back to its level.
   */
  ghost predicate Harmless(k: KState, qs: seq<Request>, q: Request) {
    match q
    case EvtReq(t, flags) => t in k.c.active || NoEffect(k, t, flags)
    case SemReq(h) =>
      match At(k.c.kind, h, TCB)
      case SCB => true
      case TCB => !LooksWaiting(k, h)
      case MCB => false
      case _ => k.List(h) == [] && Queued(qs, h) % 0x1_0000 == 0
  }

  /** The same of an event request alone. */
  ghost predicate Still(k: KState, q: Request) {
    q.EvtReq? ==> q.task in k.c.active || NoEffect(k, q.task, q.flags)
  }

  // ----- the calls

  /** What a call for a request leaves alone: types, active tasks, and everything about an inactive task t. */
  ghost predicate Outside(k: KState, k': KState, t: Ptr) {
    && k'.c.kind == k.c.kind && k'.c.active == k.c.active && k'.c.idle == k.c.idle && k'.c.g.tasks == k.c.g.tasks
    && (forall h :: h in k.c.g.lists ==> h in k'.c.g.lists)
    && At(k'.events, t, 0) == At(k.events, t, 0) && At(k'.waits, t, 0) == At(k.waits, t, 0) && k'.c.State(t) == k.c.State(t)
  }

  lemma WaiterLive(c: Core, h: Ptr)
    requires AtRest(c) && h in c.g.lists && h != RDY && c.List(h) != []
    ensures c.Live(c.List(h)[0]) && c.Live(c.run)
  {
    assert Placed(c, c.g.lists[h][0]);
  }

  lemma DispatchOutside(c: Core, t1: Ptr, t: Ptr)
    requires t != t1 && t != c.run
    ensures var r := Dispatch(c, t1);
            && r.kind == c.kind && r.active == c.active && r.idle == c.idle && r.g.tasks == c.g.tasks && r.State(t) == c.State(t)
            && forall h :: h in c.g.lists ==> h in r.g.lists
  {
    hide Ins;
  }

  lemma CallOutside(k: KState, q: Request, t: Ptr)
    requires AtRest(k.c) && Queueable(k, q) && t in k.c.g.tasks && !k.c.Live(t)
    ensures AtRest(CallAny(k, q).c) && Outside(k, CallAny(k, q), t)
  {
    hide AtRest, ThreadStep;
    if Stale(k, q) {
    } else if q.EvtReq? && q.task !in k.c.active {
      SameStep(k, q);
    } else {
      assert RequestOk(k, q);
      ThreadStepRests(k, q);
      StepOutside(k, q, t);
    }
  }

  lemma SameStep(k: KState, q: Request)
    requires AtRest(k.c) && q.EvtReq? && q.task !in k.c.active
    ensures ThreadStep(k, q) == k
  {
  }

  lemma SignalCore(k: KState, u: Ptr, flags: bv16)
    ensures var r := Signal(k, u, flags); r.c == k.c.(d := r.c.d)
  {
    hide DelayDrop, Completes, Without, Merge, Common;
  }

  lemma SignalOther(k: KState, u: Ptr, flags: bv16, t: Ptr)
    ensures var r := Signal(k, u, flags);
            && (t != u ==> At(r.events, t, 0) == At(k.events, t, 0) && At(r.waits, t, 0) == At(k.waits, t, 0))
            && (t in k.events ==> t in r.events)
  {
    hide Signal;
    SignalMaps(k, u, flags);
  }

  lemma SignalMaps(k: KState, u: Ptr, flags: bv16)
    ensures var r := Signal(k, u, flags);
            && r.events == k.events[u := At(r.events, u, 0)]
            && (r.waits == k.waits || r.waits == k.waits[u := At(r.waits, u, 0)])
  {
    hide DelayDrop, Completes, Without, Merge, Common;
    var e, w, r := Merge(At(k.events, u, 0), flags), At(k.waits, u, 0), Signal(k, u, flags);
    var w' := if k.c.State(u) == WAIT_OR then Common(w, e) else w;
    assert r.events == k.events[u := if Completes(k, u, flags) then Without(e, w) else e];
    assert r.waits == if Completes(k, u, flags) then k.waits[u := w'] else k.waits;
  }

  lemma StepOutside(k: KState, q: Request, t: Ptr)
    requires AtRest(k.c) && RequestOk(k, q) && t in k.c.g.tasks && !k.c.Live(t)
    ensures Outside(k, ThreadStep(k, q), t)
  {
    hide AtRest;
    SettledSched(k.c);
    match q {
      case SemReq(h) => SendOutside(k, h, t);
      case EvtReq(u, flags) => SetOutside(k, u, flags, t);
    }
  }

  lemma SendOutside(k: KState, h: Ptr, t: Ptr)
    requires AtRest(k.c) && h in k.c.g.lists && h != RDY && t in k.c.g.tasks && !k.c.Live(t)
    ensures Outside(k, ThreadStep(k, SemReq(h)), t)
  {
    hide Dispatch, DelayDrop, AtRest;
    if k.List(h) != [] {
      WaiterLive(k.c, h);
      DispatchOutside(WakeFirst(k.c, h), k.List(h)[0], t);
    }
  }

  lemma SetOutside(k: KState, u: Ptr, flags: bv16, t: Ptr)
    requires u in k.c.active && !k.c.Live(t) && k.c.Live(k.c.run)
    ensures Outside(k, ThreadStep(k, EvtReq(u, flags)), t)
  {
    hide Dispatch, Signal, Completes, ThreadStep;
    var k1 := Signal(k, u, flags);
    SignalCore(k, u, flags);
    SignalOther(k, u, flags, t);
    DispatchOutside(k1.c, u, t);
    SetCases(k, u, flags);
  }

  lemma SetCases(k: KState, u: Ptr, flags: bv16)
    ensures var r, k1 := ThreadStep(k, EvtReq(u, flags)), Signal(k, u, flags);
            if u !in k.c.active then r == k.(c := Commit(k.c))
            else r == k1.(c := Commit(if Completes(k, u, flags) then Dispatch(k1.c, u) else k1.c))
  {
    hide Dispatch, Signal, Completes, Commit;
  }

  lemma {:induction false} CallsOutside(k: KState, qs: seq<Request>, t: Ptr)
    requires AtRest(k.c) && (forall i :: 0 <= i < |qs| ==> Queueable(k, qs[i])) && t in k.c.g.tasks && !k.c.Live(t)
    ensures AtRest(CallAll(k, qs).c) && Outside(k, CallAll(k, qs), t)
    decreases |qs|
  {
    hide AtRest, CallAny;
    if qs != [] {
      CallOutside(k, qs[0], t);
      CallsOutside(CallAny(k, qs[0]), qs[1..], t);
    }
  }

  // ----- if every request is harmless

  /** A pass of the loop that leaves blocks alone which are no semaphores. */
  ghost function QuietOne(k: KState, q: Request): (r: KState) {
    if Stale(k, q) then k else Push(k, q)
  }

  ghost function PushQuiet(k: KState, qs: seq<Request>): (r: KState)
    decreases |qs|
  {
    if qs == [] then k else PushQuiet(QuietOne(k, qs[0]), qs[1..])
  }

  lemma NoEffectPush(k: KState, t: Ptr, flags: bv16)
    requires NoEffect(k, t, flags) && t in k.events
    ensures Push(k, EvtReq(t, flags)) == k
  {
    assert k.events[t := k.events[t]] == k.events;
  }

  lemma NoEffectFront(k: KState, t: Ptr, flags: bv16)
    requires AtRest(k.c) && t != k.c.run
    ensures var k0 := k.(c := Front(k.c)); NoEffect(k0, t, flags) <==> NoEffect(k, t, flags)
  {
    hide AtRest, Satisfies, Merge;
    FrontState(k.c, t);
  }

  ghost predicate Known(k: KState, qs: seq<Request>) {
    forall i :: 0 <= i < |qs| ==> Queueable(k, qs[i])
  }

  /** A target that is still there stays there, and a request without effect stays without. */
  lemma StillKept(k: KState, q: Request, q': Request)
    requires AtRest(k.c) && Queueable(k, q) && Queueable(k, q') && Still(k, q')
    ensures Still(CallAny(k, q), q') && Queueable(CallAny(k, q), q')
  {
    hide AtRest, CallAny, Merge, Satisfies;
    if q'.EvtReq? && q'.task !in k.c.active {
      CallOutside(k, q, q'.task);
    } else {
      TypesKept(k, q);
    }
  }

  /** Types, tasks and objects stay, and no event field disappears. */
  ghost predicate SameTypes(k: KState, k': KState) {
    && k'.c.kind == k.c.kind && k'.c.active == k.c.active && k'.c.idle == k.c.idle && k'.c.g.tasks == k.c.g.tasks
    && (forall h :: h in k.c.g.lists ==> h in k'.c.g.lists) && (forall t :: t in k.events ==> t in k'.events)
  }

  lemma TypesKept(k: KState, q: Request)
    requires AtRest(k.c) && Queueable(k, q)
    ensures SameTypes(k, CallAny(k, q))
  {
    hide AtRest;
    RunInTasks(k.c);
    match q {
      case SemReq(h) => SendTypes(k, h);
      case EvtReq(u, flags) => SetTypes(k, u, flags);
    }
  }

  lemma DispatchTypes(c: Core, t: Ptr)
    ensures var r := Dispatch(c, t);
            r.kind == c.kind && r.active == c.active && r.idle == c.idle && r.g.tasks == c.g.tasks
            && forall h :: h in c.g.lists ==> h in r.g.lists
  {
    hide Ins;
  }

  lemma SendTypes(k: KState, h: Ptr)
    ensures SameTypes(k, ThreadStep(k, SemReq(h)))
  {
    hide Dispatch, DelayDrop;
    if k.List(h) != [] {
      DispatchTypes(WakeFirst(k.c, h), k.List(h)[0]);
    }
  }

  lemma SetTypes(k: KState, u: Ptr, flags: bv16)
    ensures SameTypes(k, ThreadStep(k, EvtReq(u, flags)))
  {
    hide Dispatch, Signal, Completes, ThreadStep;
    SignalCore(k, u, flags);
    DispatchTypes(Signal(k, u, flags).c, u);
    SetCases(k, u, flags);
    forall t
      ensures t in k.events ==> t in Signal(k, u, flags).events
    {
      SignalOther(k, u, flags, t);
    }
  }

  lemma FrontKinds(c: Core)
    ensures Front(c).kind == c.kind
  {
  }

  lemma {:induction false} StillDrains(k: KState, qs: seq<Request>)
    requires AtRest(k.c) && Known(k, qs) && (forall t :: t in k.c.g.tasks ==> t in k.events)
    requires forall i :: 0 <= i < |qs| ==> Still(k, qs[i])
    ensures AtRest(CallAll(k, qs).c)
    ensures PushQuiet(k.(c := Front(k.c)), qs) == (var k' := CallAll(k, qs); k'.(c := Front(k'.c)))
    decreases |qs|
  {
    hide AtRest, Push, CallAny, QuietOne, Front, Still, Queueable, NoEffect;
    if qs != [] {
      var k1 := CallAny(k, qs[0]);
      StillStep(k, qs[0]);
      TypesKept(k, qs[0]);
      forall i | 0 <= i < |qs[1..]|
        ensures Still(k1, qs[1..][i]) && Queueable(k1, qs[1..][i])
      {
        StillKept(k, qs[0], qs[1..][i]);
      }
      StillDrains(k1, qs[1..]);
    }
  }

  lemma StillStep(k: KState, q: Request)
    requires AtRest(k.c) && Queueable(k, q) && Still(k, q) && forall t :: t in k.c.g.tasks ==> t in k.events
    ensures AtRest(CallAny(k, q).c)
    ensures QuietOne(k.(c := Front(k.c)), q) == (var k' := CallAny(k, q); k'.(c := Front(k'.c)))
  {
    hide AtRest, Push, ThreadStep, Front, NoEffect;
    FrontKinds(k.c);
    if Stale(k, q) {
    } else if q.EvtReq? && q.task !in k.c.active {
      SettledSched(k.c);
      SameStep(k, q);
      NoEffectFront(k, q.task, q.flags);
      NoEffectPush(k.(c := Front(k.c)), q.task, q.flags);
    } else {
      assert RequestOk(k, q);
      PushIsThreadStep(k, q);
      ThreadStepRests(k, q);
    }
  }

  lemma {:induction false} QuietBlank(k: KState, qs: seq<Request>)
    ensures PushQuiet(k.(c := Blank(k.c)), qs) == (var k' := PushQuiet(k, qs); k'.(c := Blank(k'.c)))
    decreases |qs|
  {
    hide Push;
    if qs != [] {
      PushBlank(k, qs[0]);
      QuietBlank(QuietOne(k, qs[0]), qs[1..]);
    }
  }

  /** The requests of the queue are for blocks that are no tasks, and for tasks. */
  ghost predicate Apart(k: KState, q: Request) {
    match q
    case SemReq(h) => h !in k.c.g.tasks && h != RDY && At(k.c.kind, h, TCB) != HCB
    case EvtReq(t, _) => t in k.c.g.tasks
  }

  ghost predicate AllApart(k: KState, qs: seq<Request>) {
    forall i :: 0 <= i < |qs| ==> Apart(k, qs[i])
  }

  /** What a pass of the loop leaves alone of the kernel, and that who is ready stays ready. */
  ghost predicate Steady(k: KState, r: KState) {
    && r.c.kind == k.c.kind && r.c.active == k.c.active && r.c.idle == k.c.idle && r.c.g.tasks == k.c.g.tasks
    && forall x :: x in k.c.Ready() ==> x in r.c.Ready()
  }

  /** The block h as the loop sees it. */
  ghost predicate SameBlock(k: KState, r: KState, h: Ptr) {
    && r.List(h) == k.List(h)
    && At(r.mut, h, FREE) == At(k.mut, h, FREE) && At(r.mbx, h, NO_MAILBOX) == At(k.mbx, h, NO_MAILBOX)
    && At(r.events, h, 0) == At(k.events, h, 0) && At(r.waits, h, 0) == At(k.waits, h, 0)
    && (h in k.mut ==> h in r.mut)
  }

  lemma ReadySteady(c: Core, t: Ptr)
    ensures var r := ToReady(c, t);
            && r.kind == c.kind && r.active == c.active && r.idle == c.idle && r.g.tasks == c.g.tasks
            && (forall x :: x in c.Ready() || x == t ==> x in r.Ready()) && (forall h :: h != RDY ==> r.List(h) == c.List(h))
  {
    hide Ins;
    InsMembers(c.Ready(), InsertPos(c.prio, c.Ready(), c.Prio(t)), t);
  }

  lemma WakeSteady(k: KState, h: Ptr, ret: Ret)
    requires h != RDY && k.List(h) != []
    ensures var r := WakeReady(k, h, ret);
            && Steady(k, r) && r.List(h) == k.List(h)[1..] && (forall g :: g != h && g != RDY ==> r.List(g) == k.List(g))
            && r == k.(c := r.c, ret := r.ret)
  {
    hide ToReady, DelayDrop;
    ReadySteady(WakeFirst(k.c, h), k.List(h)[0]);
  }

  lemma SignalSteady(k: KState, t: Ptr, flags: bv16, h: Ptr)
    ensures var r := EvtPsh(k, t, flags);
            && Steady(k, r) && (h != RDY ==> r.List(h) == k.List(h)) && r.mut == k.mut && r.mbx == k.mbx && r.msg == k.msg
            && (h != t ==> At(r.events, h, 0) == At(k.events, h, 0) && At(r.waits, h, 0) == At(k.waits, h, 0))
            && (Completes(k, t, flags) ==> t in r.c.Ready())
  {
    hide ToReady, Signal, Completes;
    SignalCore(k, t, flags);
    SignalOther(k, t, flags, h);
    SignalRest(k, t, flags);
    ReadySteady(Signal(k, t, flags).c, t);
  }

  lemma SignalRest(k: KState, t: Ptr, flags: bv16)
    ensures var r := Signal(k, t, flags); r == k.(events := r.events, waits := r.waits, ret := r.ret, c := r.c)
  {
    hide DelayDrop, Completes, Without, Merge, Common;
  }

  /** rt_evt_psh on a block: it joins the ready list. */
  lemma AsTaskSteady(k: KState, h: Ptr, g: Ptr)
    requires LooksWaiting(k, h)
    ensures var r := AsTask(k, h);
            Steady(k, r) && h in r.c.Ready() && (g != h && g != RDY ==> SameBlock(k, r, g)) && (g != RDY ==> r.List(g) == k.List(g))
            && (h in k.mut ==> h in r.mut)
  {
    hide EvtPsh, HasAll, HasAny, Merge;
    var k1 := k.(c := k.c.(state := k.c.state[h := StateByte(k, h)]));
    SignalSteady(k1, h, 0, g);
    NoFlags(At(k.events, h, 0));
    assert Completes(k1, h, 0);
    assert k1.c.Ready() == k.c.Ready();
  }

  lemma NoFlags(e: bv16)
    ensures Merge(e, 0) == e
  {
  }

  /** A pass for another block or for a task leaves a block alone. */
  lemma OtherBlock(k: KState, q: Request, r: KState, h: Ptr)
    requires DrainOne(k, q) == Drained(r) && Apart(k, q) && h != RDY && h !in k.c.g.tasks && q != SemReq(h)
    ensures Steady(k, r) && SameBlock(k, r, h)
  {
    hide WakeReady, EvtPsh, AsTask, Store, LooksWaiting;
    match q {
      case EvtReq(t, flags) => SignalSteady(k, t, flags, h);
      case SemReq(g) => ReleaseElsewhere(k, g, r, h);
    }
  }

  lemma ReleaseElsewhere(k: KState, g: Ptr, r: KState, h: Ptr)
    requires DrainOne(k, SemReq(g)) == Drained(r) && g != RDY && h != RDY && g != h
    ensures Steady(k, r) && SameBlock(k, r, h)
  {
    hide AsTask, LooksWaiting, MutPsh, MbxPsh, SemPsh, Steady, SameBlock;
    match At(k.c.kind, g, TCB) {
      case SCB => SemElsewhere(k, g, h);
      case TCB =>
        if LooksWaiting(k, g) {
          AsTaskSteady(k, g, h);
        } else {
          Itself(k, h);
        }
      case MCB => MbxElsewhere(k, g, r, h);
      case _ => MutElsewhere(k, g, h);
    }
  }

  lemma Itself(k: KState, h: Ptr)
    ensures Steady(k, k) && SameBlock(k, k, h)
  {
  }

  lemma SemElsewhere(k: KState, g: Ptr, h: Ptr)
    requires g != RDY && h != RDY && g != h
    ensures Steady(k, SemPsh(k, g)) && SameBlock(k, SemPsh(k, g), h)
  {
    hide WakeReady;
    if k.List(g) != [] {
      WakeSteady(k, g, Val(1));
    }
  }

  lemma MutElsewhere(k: KState, g: Ptr, h: Ptr)
    requires g != RDY && h != RDY && g != h
    ensures Steady(k, MutPsh(k, g)) && SameBlock(k, MutPsh(k, g), h)
  {
    hide WakeReady, U16;
    if k.List(g) != [] {
      WakeSteady(k, g, Val(1));
    }
  }

  /** The mailbox field once a blocked sender's message is stored. */
  ghost function Refilled(k: KState, g: Ptr): (r: KState)
    requires k.List(g) != []
  {
    var b := At(k.mbx, g, NO_MAILBOX);
    k.(mbx := k.mbx[g := Store(b, At(k.msg, k.List(g)[0], 0)).(count := U16(b.count + 1))])
  }

  lemma MbxElsewhere(k: KState, g: Ptr, r: KState, h: Ptr)
    requires MbxPsh(k, g, 0) == Drained(r) && g != RDY && h != RDY && g != h
    ensures Steady(k, r) && SameBlock(k, r, h)
  {
    hide WakeReady, Store, U16;
    if k.List(g) != [] {
      WakeSteady(k, g, Message(0));
      WakeSteady(Refilled(k, g), g, Val(0));
    }
  }

  /** What n passes for block h, and any for others, do to it. */
  ghost predicate Effect(k: KState, r: KState, h: Ptr, n: nat) {
    && Steady(k, r) && |r.List(h)| <= |k.List(h)| && (h in k.mut ==> h in r.mut)
    && (n == 0 ==> SameBlock(k, r, h))
    && (n > 0 ==>
          match At(k.c.kind, h, TCB)
          case TCB => LooksWaiting(k, h) ==> h in r.c.Ready()
          case SCB => true
          case HCB => true
          case MUCB =>
            if k.List(h) == []
            then At(r.mut, h, FREE) == At(k.mut, h, FREE).(level := U16(At(k.mut, h, FREE).level + n))
            else |r.List(h)| < |k.List(h)|
          case MCB =>
            if k.List(h) == [] then At(r.mbx, h, NO_MAILBOX).count == At(k.mbx, h, NO_MAILBOX).count + n
            else At(k.mbx, h, NO_MAILBOX).state in {1, 2} ==> |r.List(h)| < |k.List(h)|)
  }

  lemma OwnBlock(k: KState, r: KState, h: Ptr)
    requires DrainOne(k, SemReq(h)) == Drained(r) && h != RDY && At(k.c.kind, h, TCB) != HCB
    ensures Effect(k, r, h, 1)
    ensures At(k.c.kind, h, TCB) == TCB && !LooksWaiting(k, h) ==> r == k
  {
    hide AsTask, LooksWaiting, MutPsh, MbxPsh, SemPsh, Steady, SameBlock;
    match At(k.c.kind, h, TCB) {
      case SCB => SemOwn(k, h);
      case TCB =>
        if LooksWaiting(k, h) {
          AsTaskSteady(k, h, h);
        } else {
          Itself(k, h);
        }
      case MCB => MbxOwn(k, h, r);
      case MUCB => MutOwn(k, h);
    }
  }

  lemma SemOwn(k: KState, h: Ptr)
    requires h != RDY
    ensures var r := SemPsh(k, h); Steady(k, r) && |r.List(h)| <= |k.List(h)| && r.mut == k.mut
  {
    hide WakeReady;
    if k.List(h) != [] {
      WakeSteady(k, h, Val(1));
    }
  }

  lemma MutOwn(k: KState, h: Ptr)
    requires h != RDY
    ensures var r := MutPsh(k, h);
            && Steady(k, r) && (h in k.mut ==> h in r.mut)
            && if k.List(h) == []
               then r.List(h) == [] && At(r.mut, h, FREE) == At(k.mut, h, FREE).(level := U16(At(k.mut, h, FREE).level + 1))
               else |r.List(h)| < |k.List(h)|
  {
    hide WakeReady, U16;
    if k.List(h) != [] {
      WakeSteady(k, h, Val(1));
    }
  }

  lemma MbxOwn(k: KState, h: Ptr, r: KState)
    requires MbxPsh(k, h, 0) == Drained(r) && h != RDY
    ensures Steady(k, r) && r.mut == k.mut && |r.List(h)| <= |k.List(h)|
    ensures if k.List(h) == [] then At(r.mbx, h, NO_MAILBOX).count == At(k.mbx, h, NO_MAILBOX).count + 1
            else At(k.mbx, h, NO_MAILBOX).state in {1, 2} ==> |r.List(h)| < |k.List(h)|
  {
    hide WakeReady, Store, U16;
    if k.List(h) != [] {
      WakeSteady(k, h, Message(0));
      WakeSteady(Refilled(k, h), h, Val(0));
    }
  }

  lemma EffectTwice(k: KState, k1: KState, r: KState, h: Ptr, a: nat, b: nat)
    requires Effect(k, k1, h, a) && Effect(k1, r, h, b) && a <= 1 && h != RDY
    ensures Effect(k, r, h, a + b)
  {
    hide HasAll, HasAny;
    if a == 1 && b > 0 {
      TwiceU16(At(k.mut, h, FREE).level, b);
    }
  }

  lemma TwiceU16(l: nat, n: nat)
    ensures U16(U16(l + 1) + n) == U16(l + 1 + n)
  {
  }

  /** The loop, seen from a block h. */
  lemma {:induction false} BlockTrace(k: KState, qs: seq<Request>, r: KState, h: Ptr)
    requires PushAny(k, qs) == Drained(r) && AllApart(k, qs) && h != RDY && h !in k.c.g.tasks && At(k.c.kind, h, TCB) != HCB
    ensures Effect(k, r, h, Queued(qs, h))
    decreases |qs|
  {
    hide DrainOne, Effect, Apart;
    if qs == [] {
      NoEffectAtAll(k, h);
    } else {
      var k1, n := DrainOne(k, qs[0]).k, if qs[0] == SemReq(h) then 1 else 0;
      StepEffect(k, qs[0], k1, h);
      StillApart(k, qs, k1, h, n);
      BlockTrace(k1, qs[1..], r, h);
      EffectTwice(k, k1, r, h, n, Queued(qs[1..], h));
    }
  }

  lemma NoEffectAtAll(k: KState, h: Ptr)
    ensures Effect(k, k, h, 0)
  {
  }

  lemma StepEffect(k: KState, q: Request, r: KState, h: Ptr)
    requires DrainOne(k, q) == Drained(r) && Apart(k, q) && h != RDY && h !in k.c.g.tasks && At(k.c.kind, h, TCB) != HCB
    ensures Effect(k, r, h, if q == SemReq(h) then 1 else 0)
  {
    hide DrainOne, LooksWaiting, Steady;
    if q == SemReq(h) {
      OwnBlock(k, r, h);
    } else {
      OtherBlock(k, q, r, h);
    }
  }

  lemma StillApart(k: KState, qs: seq<Request>, k1: KState, h: Ptr, n: nat)
    requires AllApart(k, qs) && qs != [] && Effect(k, k1, h, n)
    ensures AllApart(k1, qs[1..]) && k1.c.kind == k.c.kind && k1.c.g.tasks == k.c.g.tasks
  {
    hide SameBlock, LooksWaiting;
    forall i | 0 <= i < |qs[1..]|
      ensures Apart(k1, qs[1..][i])
    {
      assert Apart(k, qs[1..][i]);
    }
  }

  // ----- levels of mutexes

  /** The mutex fields after the releases of qs that meet a mutex without waiters. */
  ghost function Raised(kind: map<Ptr, Kind>, m: map<Ptr, Mutex>, qs: seq<Request>): (r: map<Ptr, Mutex>)
    decreases |qs|
  {
    if qs == [] then m
    else if qs[0].SemReq? && At(kind, qs[0].sem, TCB) == MUCB then
      var mu := At(m, qs[0].sem, FREE);
      Raised(kind, m[qs[0].sem := mu.(level := U16(mu.level + 1))], qs[1..])
    else Raised(kind, m, qs[1..])
  }

  lemma {:induction false} RaisedAt(kind: map<Ptr, Kind>, m: map<Ptr, Mutex>, qs: seq<Request>, h: Ptr)
    requires forall i :: 0 <= i < |qs| && qs[i].SemReq? && At(kind, qs[i].sem, TCB) == MUCB ==> qs[i].sem in m
    requires h in m
    ensures Raised(kind, m, qs).Keys == m.Keys
    ensures Raised(kind, m, qs)[h] ==
            if At(kind, h, TCB) == MUCB && Queued(qs, h) > 0 then m[h].(level := U16(m[h].level + Queued(qs, h))) else m[h]
    decreases |qs|
  {
    if qs != [] {
      var m1 := if qs[0].SemReq? && At(kind, qs[0].sem, TCB) == MUCB
        then m[qs[0].sem := At(m, qs[0].sem, FREE).(level := U16(At(m, qs[0].sem, FREE).level + 1))] else m;
      assert m1.Keys == m.Keys;
      RaisedAt(kind, m1, qs[1..], h);
      TwiceU16(m[h].level, Queued(qs[1..], h));
    }
  }

  lemma {:induction false} NotQueued(qs: seq<Request>, h: Ptr)
    ensures Queued(qs, h) > 0 <==> SemReq(h) in qs
  {
    if qs != [] {
      NotQueued(qs[1..], h);
      assert qs == [qs[0]] + qs[1..];
    }
  }

  lemma FullTurns(l: nat, n: nat)
    requires l < 0x1_0000
    ensures U16(l + n) == l <==> n % 0x1_0000 == 0
  {
  }

  /** Multiples of 65536 requests leave the levels as they are. */
  lemma RaisedSame(kind: map<Ptr, Kind>, m: map<Ptr, Mutex>, qs: seq<Request>)
    requires forall i :: 0 <= i < |qs| && qs[i].SemReq? && At(kind, qs[i].sem, TCB) == MUCB ==>
               qs[i].sem in m && m[qs[i].sem].level < 0x1_0000 && Queued(qs, qs[i].sem) % 0x1_0000 == 0
    ensures Raised(kind, m, qs) == m
  {
    hide Raised, Queued;
    forall h | h in m
      ensures h in Raised(kind, m, qs) && Raised(kind, m, qs)[h] == m[h]
    {
      RaisedAt(kind, m, qs, h);
      NotQueued(qs, h);
      if SemReq(h) in qs && At(kind, h, TCB) == MUCB {
        var i :| 0 <= i < |qs| && qs[i] == SemReq(h);
        FullTurns(m[h].level, Queued(qs, h));
      }
    }
    RaisedKeys(kind, m, qs);
  }

  lemma {:induction false} RaisedKeys(kind: map<Ptr, Kind>, m: map<Ptr, Mutex>, qs: seq<Request>)
    requires forall i :: 0 <= i < |qs| && qs[i].SemReq? && At(kind, qs[i].sem, TCB) == MUCB ==> qs[i].sem in m
    ensures Raised(kind, m, qs).Keys == m.Keys
    decreases |qs|
  {
    if qs != [] {
      var m1 := if qs[0].SemReq? && At(kind, qs[0].sem, TCB) == MUCB
        then m[qs[0].sem := At(m, qs[0].sem, FREE).(level := U16(At(m, qs[0].sem, FREE).level + 1))] else m;
      assert m1.Keys == m.Keys;
      RaisedKeys(kind, m1, qs[1..]);
    }
  }

  /** The releases of qs meet semaphores, mutexes without waiters, and blocks that do not look like waiting tasks. */
  ghost predicate Mild(k: KState, q: Request) {
    q.SemReq? ==>
      match At(k.c.kind, q.sem, TCB)
      case SCB => true
      case TCB => !LooksWaiting(k, q.sem)
      case MUCB => k.List(q.sem) == []
      case _ => false
  }

  ghost predicate AllMild(k: KState, qs: seq<Request>) {
    forall i :: 0 <= i < |qs| ==> Mild(k, qs[i])
  }

  lemma MildStep(k: KState, q: Request)
    requires Mild(k, q)
    ensures var m := if q.SemReq? && At(k.c.kind, q.sem, TCB) == MUCB
                     then k.mut[q.sem := At(k.mut, q.sem, FREE).(level := U16(At(k.mut, q.sem, FREE).level + 1))] else k.mut;
            DrainOne(k, q) == Drained(QuietOne(k, q).(mut := m))
  {
    hide Push, LooksWaiting;
    PushMutexes(k, q, k.mut);
  }

  /** Releases of semaphores and event requests do not look at mutexes. */
  lemma PushMutexes(k: KState, q: Request, m: map<Ptr, Mutex>)
    ensures Push(k, q).mut == k.mut && Push(k.(mut := m), q) == Push(k, q).(mut := m)
  {
    hide SemPsh, EvtPsh;
    match q {
      case SemReq(h) => SemMutexes(k, h, m);
      case EvtReq(t, flags) => EvtMutexes(k, t, flags, m);
    }
  }

  lemma SemMutexes(k: KState, h: Ptr, m: map<Ptr, Mutex>)
    ensures SemPsh(k, h).mut == k.mut && SemPsh(k.(mut := m), h) == SemPsh(k, h).(mut := m)
  {
    hide WakeReady;
    if k.List(h) != [] {
      WakeMutexes(k, h, m);
    }
  }

  lemma WakeMutexes(k: KState, h: Ptr, m: map<Ptr, Mutex>)
    requires k.List(h) != []
    ensures WakeReady(k, h, Val(1)).mut == k.mut
    ensures k.(mut := m).List(h) != [] && WakeReady(k.(mut := m), h, Val(1)) == WakeReady(k, h, Val(1)).(mut := m)
  {
    hide ToReady, WakeFirst;
  }

  lemma EvtMutexes(k: KState, t: Ptr, flags: bv16, m: map<Ptr, Mutex>)
    ensures EvtPsh(k, t, flags).mut == k.mut && EvtPsh(k.(mut := m), t, flags) == EvtPsh(k, t, flags).(mut := m)
  {
    hide ToReady, Signal, Completes;
    SignalMutexes(k, t, flags, m);
  }

  lemma SameWaits(k: KState, t: Ptr, flags: bv16, m: map<Ptr, Mutex>)
    ensures Completes(k.(mut := m), t, flags) == Completes(k, t, flags)
  {
    hide Satisfies, Merge;
  }

  lemma SignalMutexes(k: KState, t: Ptr, flags: bv16, m: map<Ptr, Mutex>)
    ensures Signal(k, t, flags).mut == k.mut && Signal(k.(mut := m), t, flags) == Signal(k, t, flags).(mut := m)
    ensures Completes(k.(mut := m), t, flags) == Completes(k, t, flags)
  {
    hide DelayDrop, Completes, Without, Merge, Common;
    SameWaits(k, t, flags, m);
  }

  lemma {:induction false} QuietMutexes(k: KState, qs: seq<Request>, m: map<Ptr, Mutex>)
    ensures PushQuiet(k, qs).mut == k.mut && PushQuiet(k.(mut := m), qs) == PushQuiet(k, qs).(mut := m)
    decreases |qs|
  {
    hide Push;
    if qs != [] {
      PushMutexes(k, qs[0], m);
      QuietMutexes(QuietOne(k, qs[0]), qs[1..], m);
    }
  }

  lemma MildKept(k: KState, qs: seq<Request>, k1: KState)
    requires qs != [] && AllApart(k, qs) && AllMild(k, qs) && DrainOne(k, qs[0]) == Drained(k1)
    ensures AllApart(k1, qs[1..]) && AllMild(k1, qs[1..]) && k1.c.kind == k.c.kind
  {
    hide DrainOne, LooksWaiting, Effect;
    StepSteady(k, qs[0], k1);
    forall i | 0 <= i < |qs[1..]|
      ensures Apart(k1, qs[1..][i]) && Mild(k1, qs[1..][i])
    {
      var q := qs[1..][i];
      assert q == qs[i + 1];
      assert Apart(k, q) && Mild(k, q) && Apart(k, qs[0]) && Mild(k, qs[0]);
      MildStays(k, qs[0], k1, q);
    }
  }

  lemma StepSteady(k: KState, q: Request, r: KState)
    requires DrainOne(k, q) == Drained(r) && Apart(k, q)
    ensures Steady(k, r)
  {
    hide DrainOne, LooksWaiting, Steady;
    match q {
      case SemReq(h) => OwnBlock(k, r, h);
      case EvtReq(t, flags) =>
        SignalSteady(k, t, flags, RDY);
        assert r == EvtPsh(k, t, flags) by { DrainEvent(k, t, flags); }
    }
  }

  lemma DrainEvent(k: KState, t: Ptr, flags: bv16)
    ensures DrainOne(k, EvtReq(t, flags)) == Drained(EvtPsh(k, t, flags))
  {
    hide EvtPsh;
  }

  lemma MildStays(k: KState, q: Request, k1: KState, q': Request)
    requires DrainOne(k, q) == Drained(k1) && Apart(k, q) && Apart(k, q') && Mild(k, q) && Mild(k, q')
    ensures Apart(k1, q') && Mild(k1, q')
  {
    hide DrainOne;
    StepSteady(k, q, k1);
    if q'.SemReq? {
      if q == q' {
        MildOwn(k, q.sem, k1);
      } else {
        OtherBlock(k, q, k1, q'.sem);
      }
    }
  }

  lemma MildOwn(k: KState, h: Ptr, k1: KState)
    requires DrainOne(k, SemReq(h)) == Drained(k1) && Mild(k, SemReq(h)) && k1.c.kind == k.c.kind
    ensures Mild(k1, SemReq(h))
  {
    hide LooksWaiting, Push;
  }

  /** If all releases are mild the loop is the quiet one, and raises the levels of mutexes. */
  lemma {:induction false} MildDrains(k: KState, qs: seq<Request>)
    requires AllApart(k, qs) && AllMild(k, qs)
    ensures PushAny(k, qs) == Drained(PushQuiet(k, qs).(mut := Raised(k.c.kind, k.mut, qs)))
    decreases |qs|
  {
    hide DrainOne, QuietOne, AllApart, AllMild;
    if qs == [] {
      assert k.(mut := k.mut) == k;
    } else {
      assert Mild(k, qs[0]) by { FirstMild(k, qs); }
      MildStep(k, qs[0]);
      var k1, k2 := DrainOne(k, qs[0]).k, QuietOne(k, qs[0]);
      MildKept(k, qs, k1);
      MildDrains(k1, qs[1..]);
      QuietMutexes(k2, qs[1..], k1.mut);
      assert k1 == k2.(mut := k1.mut);
    }
  }

  lemma FirstMild(k: KState, qs: seq<Request>)
    requires AllMild(k, qs) && qs != []
    ensures Mild(k, qs[0])
  {
  }

  /** What the invariant says about the blocks that requests name. */
  lemma BlocksFit(k: KState, qs: seq<Request>)
    requires KInv(k) && Known(k, qs)
    ensures AllApart(k, qs) && (forall t :: t in k.c.g.tasks ==> t in k.events)
    ensures forall h :: h in k.c.g.lists && h != RDY && At(k.c.kind, h, TCB) == MUCB ==> h in k.mut && k.mut[h].level < 0x1_0000
    ensures forall h :: h in k.c.g.lists && h != RDY && At(k.c.kind, h, TCB) == MCB && k.List(h) != [] ==>
              At(k.mbx, h, NO_MAILBOX).state in {1, 2}
  {
    hide RingOk;
    forall i | 0 <= i < |qs|
      ensures Apart(k, qs[i])
    {
      assert Queueable(k, qs[i]);
    }
    forall t | t in k.c.g.tasks
      ensures t in k.events
    {
      assert FlagsOk(k, t);
    }
    forall h | h in k.c.g.lists && h != RDY
      ensures ObjectOk(k, h)
    {
    }
  }

  lemma AllHarmless(k: KState, qs: seq<Request>)
    requires KInv(k) && Known(k, qs) && forall i :: 0 <= i < |qs| ==> Harmless(k, qs, qs[i])
    ensures DrainAny(k, qs) == Drained(CallAll(k, qs))
  {
    hide KInv, AtRest, Known, PushAny, PushQuiet, CallAll, ReadyAt, DispatchNext, Still, Mild, Harmless, Apart;
    var k0, k' := k.(c := ReadyAt(k.c, 0, k.c.run)), CallAll(k, qs);
    InvParts(k);
    BlocksFit(k, qs);
    HarmlessMild(k, qs);
    HarmlessStill(k, qs);
    HarmlessLevels(k, qs);
    MildDrains(k0, qs);
    QuietMutexes(k0, qs, k0.mut);
    FrontType(k.c);
    var k1 := PushQuiet(k0, qs);
    assert PushAny(k0, qs) == Drained(k1);
    StillDrains(k, qs);
    QuietBlank(k0, qs);
    assert Blank(k1.c) == Front(k'.c);
    FrontAndBack(k'.c);
    DispatchBlank(k1.c);
  }

  lemma InvParts(k: KState)
    requires KInv(k)
    ensures AtRest(k.c)
  {
    hide AtRest, Objects;
  }

  lemma HarmlessStill(k: KState, qs: seq<Request>)
    requires forall i :: 0 <= i < |qs| ==> Harmless(k, qs, qs[i])
    ensures forall i :: 0 <= i < |qs| ==> Still(k, qs[i])
  {
    hide NoEffect, LooksWaiting;
    forall i | 0 <= i < |qs|
      ensures Still(k, qs[i])
    {
      assert Harmless(k, qs, qs[i]);
    }
  }

  lemma HarmlessMild(k: KState, qs: seq<Request>)
    requires AllApart(k, qs) && Known(k, qs) && forall i :: 0 <= i < |qs| ==> Harmless(k, qs, qs[i])
    ensures var k0 := k.(c := ReadyAt(k.c, 0, k.c.run)); AllApart(k0, qs) && AllMild(k0, qs)
  {
    hide LooksWaiting, NoEffect, ReadyAt;
    var k0 := k.(c := ReadyAt(k.c, 0, k.c.run));
    FrontType(k.c);
    forall i | 0 <= i < |qs|
      ensures Apart(k0, qs[i]) && Mild(k0, qs[i])
    {
      assert Apart(k, qs[i]) && Harmless(k, qs, qs[i]) && Queueable(k, qs[i]);
      if qs[i].SemReq? {
        SameList(k.c, qs[i].sem);
        SameLook(k, qs[i].sem);
      }
    }
  }

  lemma SameLook(k: KState, h: Ptr)
    ensures LooksWaiting(k.(c := ReadyAt(k.c, 0, k.c.run)), h) == LooksWaiting(k, h)
  {
    hide ReadyAt, Satisfies;
  }

  lemma HarmlessLevels(k: KState, qs: seq<Request>)
    requires Known(k, qs) && forall i :: 0 <= i < |qs| ==> Harmless(k, qs, qs[i])
    requires KInv(k)
    ensures Raised(k.c.kind, k.mut, qs) == k.mut
  {
    hide KInv, LooksWaiting, NoEffect, Raised, Queued;
    BlocksFit(k, qs);
    forall i | 0 <= i < |qs| && qs[i].SemReq? && At(k.c.kind, qs[i].sem, TCB) == MUCB
      ensures qs[i].sem in k.mut && k.mut[qs[i].sem].level < 0x1_0000 && Queued(qs, qs[i].sem) % 0x1_0000 == 0
    {
      assert Harmless(k, qs, qs[i]) && Queueable(k, qs[i]);
    }
    RaisedSame(k.c.kind, k.mut, qs);
  }

  lemma FrontType(c: Core)
    ensures var c0 := ReadyAt(c, 0, c.run);
            c0.kind == c.kind && c0.g.tasks == c.g.tasks && c0.active == c.active && c0.idle == c.idle
  {
  }

  // ----- if a target is gone

  /** Nobody waits in the name of t. */
  ghost predicate OffLists(c: Core, t: Ptr) {
    forall h :: h != RDY ==> t !in c.List(h)
  }

  predicate Grown(e: bv16, e': bv16) {
    Merge(e, e') == e'
  }

  lemma GrownTwice(a: bv16, b: bv16, c: bv16)
    requires Grown(a, b) && Grown(b, c)
    ensures Grown(a, c) && (a == c ==> a == b)
  {
  }

  lemma GrownBy(e: bv16, flags: bv16)
    ensures Grown(e, Merge(e, flags)) && Grown(e, e)
  {
  }

  /** Making u ready, seen from a task t that is on no wait list. */
  lemma ReadySeen(c: Core, u: Ptr, t: Ptr)
    requires OffLists(c, t)
    ensures var r := ToReady(c, u);
            && OffLists(r, t) && r.kind == c.kind && (t in c.Ready() || t == u ==> t in r.Ready())
            && (t != u ==> r.State(t) == c.State(t))
  {
    hide Ins;
    var i := InsertPos(c.prio, c.Ready(), c.Prio(u));
    InsMembers(c.Ready(), i, u);
    var r := ToReady(c, u);
    assert r.Ready() == Ins(c.Ready(), i, u);
    forall h | h != RDY
      ensures t !in r.List(h)
    {
      assert r.List(h) == c.List(h);
    }
  }

  lemma WokenSeen(c: Core, h: Ptr, t: Ptr)
    requires OffLists(c, t) && h != RDY && c.List(h) != []
    ensures var r := WakeFirst(c, h);
            && OffLists(r, t) && r.kind == c.kind && r.Ready() == c.Ready() && r.State(t) == c.State(t) && c.List(h)[0] != t
  {
    hide DelayDrop;
    var r := WakeFirst(c, h);
    assert c.List(h)[0] in c.List(h);
    assert forall x :: x in c.List(h)[1..] ==> x in c.List(h);
    forall g | g != RDY
      ensures t !in r.List(g)
    {
      assert r.List(g) == if g == h then c.List(h)[1..] else c.List(g);
    }
  }

  /** What a pass of the loop leaves alone of a task t that is on no wait list. */
  ghost predicate Seen(k: KState, r: KState, t: Ptr) {
    && OffLists(r.c, t) && r.c.kind == k.c.kind && r.c.g.tasks == k.c.g.tasks && (t in k.c.Ready() ==> t in r.c.Ready())
  }

  ghost predicate SameTask(k: KState, r: KState, t: Ptr) {
    At(r.events, t, 0) == At(k.events, t, 0) && At(r.waits, t, 0) == At(k.waits, t, 0) && r.c.State(t) == k.c.State(t)
  }

  lemma WakeSeen(k: KState, h: Ptr, ret: Ret, t: Ptr)
    requires OffLists(k.c, t) && h != RDY && k.List(h) != []
    ensures Seen(k, WakeReady(k, h, ret), t) && SameTask(k, WakeReady(k, h, ret), t)
  {
    hide ToReady, WakeFirst, OffLists;
    WokenSeen(k.c, h, t);
    ReadySeen(WakeFirst(k.c, h), k.List(h)[0], t);
    WakeSteady(k, h, ret);
  }

  lemma SignalSeen(k: KState, u: Ptr, flags: bv16, t: Ptr)
    requires OffLists(k.c, t)
    ensures var r := Signal(k, u, flags);
            && OffLists(r.c, t) && r.c.kind == k.c.kind && r.c.Ready() == k.c.Ready() && r.c.State(t) == k.c.State(t)
            && (u != t ==> At(r.events, t, 0) == At(k.events, t, 0) && At(r.waits, t, 0) == At(k.waits, t, 0))
  {
    hide Signal;
    SignalCore(k, u, flags);
    SignalOther(k, u, flags, t);
    var r := Signal(k, u, flags);
    assert forall h :: r.c.List(h) == k.c.List(h);
  }

  lemma EventSeen(k: KState, u: Ptr, flags: bv16, t: Ptr)
    requires OffLists(k.c, t)
    ensures Seen(k, EvtPsh(k, u, flags), t) && (u != t ==> SameTask(k, EvtPsh(k, u, flags), t))
  {
    hide ToReady, Signal, Completes, OffLists;
    SignalSeen(k, u, flags, t);
    SignalCore(k, u, flags);
    ReadySeen(Signal(k, u, flags).c, u, t);
    SignalSteady(k, u, flags, t);
  }

  /** One request, seen from a task t that is on no wait list. */
  lemma DrainSeen(k: KState, q: Request, r: KState, t: Ptr)
    requires DrainOne(k, q) == Drained(r) && OffLists(k.c, t) && Apart(k, q) && t in k.c.g.tasks
    ensures Seen(k, r, t) && (!(q.EvtReq? && q.task == t) ==> SameTask(k, r, t))
  {
    hide WakeReady, EvtPsh, AsTask, LooksWaiting, OffLists, Seen, SameTask, MbxPsh, MutPsh, SemPsh;
    match q {
      case EvtReq(u, flags) => EventSeen(k, u, flags, t);
      case SemReq(h) =>
        match At(k.c.kind, h, TCB) {
          case SCB => SemSeen(k, h, t);
          case TCB =>
            if LooksWaiting(k, h) {
              AsTaskSeen(k, h, t);
            } else {
              ItselfSeen(k, t);
            }
          case MCB => MbxSeen(k, h, r, t);
          case _ => MutSeen(k, h, t);
        }
    }
  }

  lemma ItselfSeen(k: KState, t: Ptr)
    requires OffLists(k.c, t)
    ensures Seen(k, k, t) && SameTask(k, k, t)
  {
  }

  lemma SemSeen(k: KState, h: Ptr, t: Ptr)
    requires OffLists(k.c, t) && h != RDY
    ensures Seen(k, SemPsh(k, h), t) && SameTask(k, SemPsh(k, h), t)
  {
    hide WakeReady, OffLists;
    if k.List(h) != [] {
      WakeSeen(k, h, Val(1), t);
    }
  }

  lemma MutSeen(k: KState, h: Ptr, t: Ptr)
    requires OffLists(k.c, t) && h != RDY
    ensures Seen(k, MutPsh(k, h), t) && SameTask(k, MutPsh(k, h), t)
  {
    hide WakeReady, OffLists;
    if k.List(h) != [] {
      WakeSeen(k, h, Val(1), t);
    }
  }

  lemma MbxSeen(k: KState, h: Ptr, r: KState, t: Ptr)
    requires MbxPsh(k, h, 0) == Drained(r) && OffLists(k.c, t) && h != RDY
    ensures Seen(k, r, t) && SameTask(k, r, t)
  {
    hide WakeReady, OffLists, Store, U16;
    if k.List(h) != [] {
      WakeSeen(k, h, Message(0), t);
      WakeSeen(Refilled(k, h), h, Val(0), t);
    }
  }

  lemma AsTaskSeen(k: KState, h: Ptr, t: Ptr)
    requires OffLists(k.c, t) && t != h
    ensures Seen(k, AsTask(k, h), t) && SameTask(k, AsTask(k, h), t)
  {
    hide EvtPsh;
    var k1 := k.(c := k.c.(state := k.c.state[h := StateByte(k, h)]));
    assert forall g :: k1.c.List(g) == k.c.List(g);
    EventSeen(k1, h, 0, t);
  }

  /** A request for t itself: it makes t ready or adds flags. */
  lemma OwnSeen(k: KState, t: Ptr, flags: bv16)
    requires OffLists(k.c, t)
    ensures var r := Push(k, EvtReq(t, flags));
            if Completes(k, t, flags) then t in r.c.Ready()
            else r == k.(events := k.events[t := Merge(At(k.events, t, 0), flags)])
  {
    hide DelayDrop, ToReady, HasAll, HasAny, Without, Merge, Common, Completes, OffLists;
    if Completes(k, t, flags) {
      SignalSeen(k, t, flags, t);
      ReadySeen(Signal(k, t, flags).c, t, t);
    }
  }

  /** What the queue did to t: t has become ready, or its flags have grown unless nothing had an effect on it. */
  lemma {:induction false} PushTrace(k: KState, qs: seq<Request>, r: KState, t: Ptr)
    requires PushAny(k, qs) == Drained(r) && OffLists(k.c, t) && AllApart(k, qs) && t in k.c.g.tasks
    ensures t in k.c.Ready() ==> t in r.c.Ready()
    ensures t !in r.c.Ready() ==>
              && Grown(At(k.events, t, 0), At(r.events, t, 0))
              && (At(r.events, t, 0) == At(k.events, t, 0) ==>
                    forall flags :: EvtReq(t, flags) in qs ==> NoEffect(k, t, flags))
    decreases |qs|
  {
    hide DrainOne, OffLists, Merge, Satisfies, Grown, Apart;
    if qs == [] {
      GrownBy(At(k.events, t, 0), 0);
    } else {
      var q, k1 := qs[0], DrainOne(k, qs[0]).k;
      DrainSeen(k, q, k1, t);
      assert AllApart(k1, qs[1..]) by { ApartOn(k, qs, k1); }
      PushTrace(k1, qs[1..], r, t);
      if t !in r.c.Ready() {
        if q.EvtReq? && q.task == t {
          OwnSeen(k, t, q.flags);
          DrainEvent(k, t, q.flags);
          GrownBy(At(k.events, t, 0), q.flags);
        } else {
          GrownBy(At(k.events, t, 0), 0);
        }
        GrownTwice(At(k.events, t, 0), At(k1.events, t, 0), At(r.events, t, 0));
        if At(r.events, t, 0) == At(k.events, t, 0) {
          forall flags | EvtReq(t, flags) in qs
            ensures NoEffect(k, t, flags)
          {
            if EvtReq(t, flags) in qs[1..] {
              assert NoEffect(k1, t, flags);
            } else {
              assert q == EvtReq(t, flags);
            }
          }
        }
      }
    }
  }

  lemma ApartOn(k: KState, qs: seq<Request>, k1: KState)
    requires AllApart(k, qs) && qs != [] && k1.c.kind == k.c.kind && k1.c.g.tasks == k.c.g.tasks
    ensures AllApart(k1, qs[1..])
  {
    forall i | 0 <= i < |qs[1..]|
      ensures Apart(k1, qs[1..][i])
    {
      assert Apart(k, qs[i + 1]);
    }
  }

  lemma ListedOn(c: Core, t: Ptr, h: Ptr)
    requires AtRest(c)
    ensures t in c.List(h) ==> t in c.g.tasks && h != NULL && At(c.g.on, t, NULL) == h
  {
    if t in c.List(h) {
      var i :| 0 <= i < |c.List(h)| && c.List(h)[i] == t;
      assert c.g.lists[h][i] == t;
    }
  }

  lemma InactiveOff(c: Core, t: Ptr)
    requires AtRest(c) && t in c.g.tasks && !c.Live(t)
    ensures var c0 := ReadyAt(c, 0, c.run);
            OffLists(c0, t) && t !in c.Ready() && t != c.run && t !in c0.Ready() && c0.State(t) == c.State(t)
  {
    hide Ins;
    SettledSched(c);
    assert Placed(c, t);
    forall h
      ensures t !in c.List(h)
    {
      ListedOn(c, t, h);
    }
    InsMembers(c.Ready(), 0, c.run);
  }

  /** The memory after a drain that had an effect on an inactive task t is not the memory after the calls. */
  lemma GoneDiffers(k: KState, qs: seq<Request>, t: Ptr, flags: bv16)
    requires KInv(k) && Known(k, qs) && EvtReq(t, flags) in qs && t !in k.c.active && !NoEffect(k, t, flags)
    ensures DrainAny(k, qs) != Drained(CallAll(k, qs))
  {
    hide KInv, AtRest, PushAny, CallAll, ReadyAt, NoEffect, OffLists, DispatchNext, Apart;
    var k0, k' := k.(c := ReadyAt(k.c, 0, k.c.run)), CallAll(k, qs);
    var j :| 0 <= j < |qs| && qs[j] == EvtReq(t, flags);
    assert Queueable(k, qs[j]);
    InvParts(k);
    InactiveOff(k.c, t);
    CallsOutside(k, qs, t);
    InactiveOff(k'.c, t);
    BlocksFit(k, qs);
    ApartFront(k, qs);
    FrontType(k.c);
    SameEffect(k, t, flags);
    if PushAny(k0, qs).Drained? {
      var r := PushAny(k0, qs).k;
      PushTrace(k0, qs, r, t);
      if t in r.c.Ready() {
        FirstRuns(r.c, t);
      }
      DrainEvents(k, qs);
    }
  }

  lemma ApartFront(k: KState, qs: seq<Request>)
    requires AllApart(k, qs)
    ensures AllApart(k.(c := ReadyAt(k.c, 0, k.c.run)), qs)
  {
    hide ReadyAt;
    FrontType(k.c);
    forall i | 0 <= i < |qs|
      ensures Apart(k.(c := ReadyAt(k.c, 0, k.c.run)), qs[i])
    {
      assert Apart(k, qs[i]);
    }
  }

  lemma DrainEvents(k: KState, qs: seq<Request>)
    ensures var d := DrainAny(k, qs); var p := PushAny(k.(c := ReadyAt(k.c, 0, k.c.run)), qs);
            && (d.Drained? <==> p.Drained?)
            && (d.Drained? ==> d.k.events == p.k.events && d.k.mut == p.k.mut && d.k.mbx == p.k.mbx && d.k.c == Commit(DispatchNext(p.k.c)))
  {
    hide PushAny, ReadyAt, DispatchNext;
  }

  lemma SameEffect(k: KState, t: Ptr, flags: bv16)
    requires ReadyAt(k.c, 0, k.c.run).State(t) == k.c.State(t)
    ensures NoEffect(k.(c := ReadyAt(k.c, 0, k.c.run)), t, flags) <==> NoEffect(k, t, flags)
  {
    hide ReadyAt, Merge, Satisfies;
  }

  lemma FirstRuns(c: Core, t: Ptr)
    requires t in c.Ready()
    ensures var d := Commit(DispatchNext(c)); t == d.run || t in d.Ready()
  {
  }

  lemma NextLists(c: Core, h: Ptr)
    requires h != RDY
    ensures Commit(DispatchNext(c)).List(h) == c.List(h)
  {
  }

  /** The calls leave a block alone that is no semaphore. */
  lemma {:induction false} CallsSpare(k: KState, qs: seq<Request>, h: Ptr)
    requires AtRest(k.c) && Known(k, qs) && h != RDY && At(k.c.kind, h, TCB) != SCB
    ensures var r := CallAll(k, qs);
            && AtRest(r.c) && r.c.kind == k.c.kind && r.c.g.tasks == k.c.g.tasks
            && r.List(h) == k.List(h) && r.mut == k.mut && r.mbx == k.mbx
    decreases |qs|
  {
    hide AtRest, CallAny, Queueable;
    if qs != [] {
      var k1 := CallAny(k, qs[0]);
      assert Queueable(k, qs[0]);
      CallSpares(k, qs[0], h);
      TypesKept(k, qs[0]);
      forall i | 0 <= i < |qs[1..]|
        ensures Queueable(k1, qs[1..][i])
      {
        assert Queueable(k, qs[i + 1]);
        SameQueueable(k, k1, qs[i + 1]);
      }
      CallsSpare(k1, qs[1..], h);
    }
  }

  lemma SameQueueable(k: KState, k1: KState, q: Request)
    requires SameTypes(k, k1) && Queueable(k, q)
    ensures Queueable(k1, q)
  {
  }

  lemma CallSpares(k: KState, q: Request, h: Ptr)
    requires AtRest(k.c) && Queueable(k, q) && h != RDY && At(k.c.kind, h, TCB) != SCB
    ensures var r := CallAny(k, q); AtRest(r.c) && r.List(h) == k.List(h) && r.mut == k.mut && r.mbx == k.mbx
  {
    hide AtRest, ThreadStep;
    if Stale(k, q) {
    } else if q.EvtReq? && q.task !in k.c.active {
      SameStep(k, q);
    } else {
      assert RequestOk(k, q);
      ThreadStepRests(k, q);
      match q {
        case SemReq(g) => SendSpares(k, g, h);
        case EvtReq(t, flags) => SetSpares(k, t, flags, h);
      }
    }
  }

  lemma SendSpares(k: KState, g: Ptr, h: Ptr)
    requires g != RDY && h != RDY && g != h
    ensures var r := ThreadStep(k, SemReq(g)); r.List(h) == k.List(h) && r.mut == k.mut && r.mbx == k.mbx
  {
    hide Dispatch, DelayDrop;
    if k.List(g) != [] {
      DispatchTouches(WakeFirst(k.c, g), k.List(g)[0]);
      assert Dispatch(WakeFirst(k.c, g), k.List(g)[0]).List(h) == WakeFirst(k.c, g).List(h);
    }
  }

  lemma SetSpares(k: KState, t: Ptr, flags: bv16, h: Ptr)
    requires h != RDY
    ensures var r := ThreadStep(k, EvtReq(t, flags)); r.List(h) == k.List(h) && r.mut == k.mut && r.mbx == k.mbx
  {
    hide Dispatch, Signal, Completes, ThreadStep;
    SignalCore(k, t, flags);
    SignalRest(k, t, flags);
    DispatchTouches(Signal(k, t, flags).c, t);
    assert Dispatch(Signal(k, t, flags).c, t).List(h) == Signal(k, t, flags).c.List(h);
    SetCases(k, t, flags);
  }

  /** The memory after a drain with a harmful release is not the memory after the calls. */
  lemma ReleaseDiffers(k: KState, qs: seq<Request>, h: Ptr)
    requires KInv(k) && Known(k, qs) && SemReq(h) in qs && !Harmless(k, qs, SemReq(h))
    ensures DrainAny(k, qs) != Drained(CallAll(k, qs))
  {
    hide KInv, AtRest, PushAny, CallAll, ReadyAt, DispatchNext, Apart, Effect, LooksWaiting, Queued;
    var k0, k' := k.(c := ReadyAt(k.c, 0, k.c.run)), CallAll(k, qs);
    var j :| 0 <= j < |qs| && qs[j] == SemReq(h);
    assert Queueable(k, qs[j]);
    InvParts(k);
    BlocksFit(k, qs);
    ApartFront(k, qs);
    FrontType(k.c);
    assert Apart(k, qs[j]) && h !in k0.c.g.tasks by { BlockNoTask(k, qs, j); }
    SameList(k.c, h);
    SameLook(k, h);
    NotQueued(qs, h);
    CallsSpare(k, qs, h);
    DrainEvents(k, qs);
    if PushAny(k0, qs).Drained? {
      var r := PushAny(k0, qs).k;
      BlockTrace(k0, qs, r, h);
      NextLists(r.c, h);
      HarmSeen(k, k0, r, k', qs, h);
    }
  }

  lemma BlockNoTask(k: KState, qs: seq<Request>, j: nat)
    requires AllApart(k, qs) && j < |qs| && qs[j].SemReq?
    ensures Apart(k, qs[j]) && qs[j].sem !in k.c.g.tasks
  {
  }

  lemma HarmSeen(k: KState, k0: KState, r: KState, k': KState, qs: seq<Request>, h: Ptr)
    requires KInv(k) && h in k.c.g.lists && h != RDY && At(k.c.kind, h, TCB) != HCB && h !in k.c.g.tasks
    requires k0 == k.(c := ReadyAt(k.c, 0, k.c.run)) && LooksWaiting(k0, h) == LooksWaiting(k, h) && k0.List(h) == k.List(h)
    requires k0.c.kind == k.c.kind && Effect(k0, r, h, Queued(qs, h)) && Queued(qs, h) > 0
    requires !Harmless(k, qs, SemReq(h))
    requires AtRest(k'.c) && k'.c.g.tasks == k.c.g.tasks && k'.List(h) == k.List(h) && k'.mut == k.mut && k'.mbx == k.mbx
    ensures var c := Commit(DispatchNext(r.c)); c.List(h) == k'.List(h) && r.mut == k'.mut && r.mbx == k'.mbx ==> c != k'.c
  {
    hide KInv, AtRest, ReadyAt, DispatchNext, LooksWaiting, Queued, Steady, SameBlock;
    NextLists(r.c, h);
    match At(k.c.kind, h, TCB) {
      case TCB =>
        FirstRuns(r.c, h);
        NoTaskReady(k'.c, h);
      case MUCB =>
        MutexAt(k, h);
        FullTurns(k.mut[h].level, Queued(qs, h));
      case MCB => MailboxAt(k, h);
    }
  }

  lemma NoTaskReady(c: Core, h: Ptr)
    requires AtRest(c) && h !in c.g.tasks
    ensures h != c.run && h !in c.Ready()
  {
    hide Placed;
    if h in c.Ready() {
      ListedOn(c, h, RDY);
    }
  }

  lemma MutexAt(k: KState, h: Ptr)
    requires KInv(k) && h in k.c.g.lists && h != RDY && At(k.c.kind, h, TCB) == MUCB
    ensures h in k.mut && k.mut[h].level < 0x1_0000
  {
    hide AtRest;
    assert ObjectOk(k, h);
  }

  lemma MailboxAt(k: KState, h: Ptr)
    requires KInv(k) && h in k.c.g.lists && h != RDY && At(k.c.kind, h, TCB) == MCB
    ensures h in k.mbx && (k.List(h) != [] ==> k.mbx[h].state in {1, 2})
  {
    hide AtRest, RingOk;
    assert ObjectOk(k, h);
  }

  /**
   * Draining ends in the memory that making the calls ends in exactly if every request is harmless: its task is
   * active or the flags change nothing, its semaphore is still one or its block has no type and does not look
   * like a waiting task. A block that has become a mailbox is never, and a mutex only after 65536 requests each.
   */
  lemma DrainExactly(k: KState, qs: seq<Request>)
    requires KInv(k) && Known(k, qs)
    ensures DrainAny(k, qs) == Drained(CallAll(k, qs)) <==> forall i :: 0 <= i < |qs| ==> Harmless(k, qs, qs[i])
  {
    hide KInv, DrainAny, CallAll, NoEffect, LooksWaiting, Queueable, Queued;
    if forall i :: 0 <= i < |qs| ==> Harmless(k, qs, qs[i]) {
      AllHarmless(k, qs);
    } else {
      var i :| 0 <= i < |qs| && !Harmless(k, qs, qs[i]);
      assert qs[i] in qs;
      match qs[i] {
        case SemReq(h) => ReleaseDiffers(k, qs, h);
        case EvtReq(t, flags) => GoneDiffers(k, qs, t, flags);
      }
    }
  }

  /** A task that is deleted with a request for it in the queue, which completes its old wait, comes back to life. */
  lemma DeadTaskReturns(k: KState, t: Ptr, flags: bv16)
    requires AtRest(k.c) && t in k.c.g.tasks && !k.c.Live(t) && Completes(k, t, flags)
    ensures var d := DrainAny(k, [EvtReq(t, flags)]);
            && d.Drained? && (d.k.c.run == t || t in d.k.c.Ready()) && !d.k.c.Live(t)
            && (k.c.Prio(t) > k.c.Prio(k.c.run) ==> d.k.c.run == t)
    ensures CallAll(k, [EvtReq(t, flags)]) == k
  {
    hide AtRest, Push, ReadyAt, DispatchNext, Completes, OffLists;
    var q, k0 := EvtReq(t, flags), k.(c := ReadyAt(k.c, 0, k.c.run));
    SettledSched(k.c);
    InactiveOff(k.c, t);
    SameStep(k, q);
    assert [q][1..] == [];
    assert Completes(k0, t, flags) by { SameCompletes(k, t, flags); }
    OwnSeen(k0, t, flags);
    var r := Push(k0, q);
    DrainEvent(k0, t, flags);
    assert PushAny(k0, [q]) == PushAny(r, []) == Drained(r);
    FirstRuns(r.c, t);
    if k.c.Prio(t) > k.c.Prio(k.c.run) {
      RunInFront(k.c);
      UrgentFirst(k0, t, flags);
    }
    DeadStaysDead(k, q);
    assert CallAll(k, [q]) == CallAll(k, []);
  }

  lemma DrainSingle(k: KState, h: Ptr, m: map<Ptr, Mutex>)
    requires AtRest(k.c) && h != RDY && Stale(k, SemReq(h))
    requires DrainOne(k.(c := ReadyAt(k.c, 0, k.c.run)), SemReq(h)) == Drained(k.(c := ReadyAt(k.c, 0, k.c.run), mut := m))
    ensures DrainAny(k, [SemReq(h)]) == Drained(k.(mut := m)) && CallAll(k, [SemReq(h)]) == k
  {
    hide AtRest, DrainOne, ReadyAt, DispatchNext;
    var q, k0 := SemReq(h), k.(c := ReadyAt(k.c, 0, k.c.run));
    assert [q][1..] == [];
    assert PushAny(k0, [q]) == PushAny(k0.(mut := m), []);
    FrontAndBack(k.c);
    assert Front(k.c) == Blank(k0.c);
    DispatchBlank(k0.c) by { RunInFront(k.c); }
    assert CallAny(k, q) == k;
    assert CallAll(k, [q]) == CallAll(k, []);
  }

  /** A queued release of a semaphore that was deleted changes nothing, unless the block looks like a waiting task. */
  lemma DeletedIgnored(k: KState, h: Ptr)
    requires AtRest(k.c) && h != RDY && At(k.c.kind, h, TCB) == TCB && !LooksWaiting(k, h)
    ensures DrainAny(k, [SemReq(h)]) == Drained(k) && CallAll(k, [SemReq(h)]) == k
  {
    hide AtRest, ReadyAt, LooksWaiting, DrainAny, CallAll;
    SameLook(k, h);
    FrontType(k.c);
    assert k.(mut := k.mut) == k;
    DrainSingle(k, h, k.mut);
  }

  /** If the block has become a mutex without waiters, the release raises its level, with nobody as its owner. */
  lemma MutexRaised(k: KState, h: Ptr)
    requires AtRest(k.c) && h != RDY && At(k.c.kind, h, TCB) == MUCB && k.List(h) == []
    ensures DrainAny(k, [SemReq(h)]) ==
            Drained(k.(mut := k.mut[h := At(k.mut, h, FREE).(level := U16(At(k.mut, h, FREE).level + 1))]))
  {
    hide AtRest, ReadyAt, DrainAny, CallAll, U16;
    SameList(k.c, h);
    FrontType(k.c);
    DrainSingle(k, h, k.mut[h := At(k.mut, h, FREE).(level := U16(At(k.mut, h, FREE).level + 1))]);
  }

  lemma RunInFront(c: Core)
    ensures var c0 := ReadyAt(c, 0, c.run); c0.Ready() != [] && c0.Ready()[0] == c.run && c0.prio == c.prio
  {
  }

  /** A task whose wait the request completes, of a higher priority than all ready ones, runs next. */
  lemma UrgentFirst(k: KState, t: Ptr, flags: bv16)
    requires Completes(k, t, flags) && k.c.Ready() != [] && k.c.Prio(t) > k.c.Prio(k.c.Ready()[0])
    ensures Commit(DispatchNext(Push(k, EvtReq(t, flags)).c)).run == t
  {
    hide Signal, Completes, DispatchNext;
    var c1 := Signal(k, t, flags).c;
    SignalCore(k, t, flags);
    HeadNext(c1, t);
  }

  lemma HeadNext(c: Core, t: Ptr)
    requires c.Ready() != [] && c.Prio(t) > c.Prio(c.Ready()[0])
    ensures DispatchNext(ToReady(c, t)).next == t
  {
  }

  lemma SameCompletes(k: KState, t: Ptr, flags: bv16)
    requires ReadyAt(k.c, 0, k.c.run).State(t) == k.c.State(t)
    ensures Completes(k.(c := ReadyAt(k.c, 0, k.c.run)), t, flags) == Completes(k, t, flags)
  {
    hide ReadyAt, Merge, Satisfies;
  }

  lemma DeadStaysDead(k: KState, q: Request)
    ensures var r := Push(k.(c := ReadyAt(k.c, 0, k.c.run)), q).c;
            var d := Commit(DispatchNext(r)); d.active == k.c.active && d.idle == k.c.idle
  {
    hide Push;
    KindsKept(k.(c := ReadyAt(k.c, 0, k.c.run)), q);
  }

  lemma KindsKept(k: KState, q: Request)
    ensures var r := Push(k, q).c; r.kind == k.c.kind && r.active == k.c.active && r.idle == k.c.idle
  {
    hide ToReady, WakeFirst, Signal, Completes;
    match q {
      case SemReq(h) =>
        if k.List(h) != [] {
          WokenTypes(k.c, h);
          ReadyTypes(WakeFirst(k.c, h), k.List(h)[0]);
        }
      case EvtReq(u, flags) =>
        SignalCore(k, u, flags);
        ReadyTypes(Signal(k, u, flags).c, u);
    }
  }

  lemma WokenTypes(c: Core, h: Ptr)
    requires c.List(h) != []
    ensures var r := WakeFirst(c, h); r.kind == c.kind && r.active == c.active && r.idle == c.idle
  {
  }

  lemma ReadyTypes(c: Core, t: Ptr)
    ensures var r := ToReady(c, t); r.kind == c.kind && r.active == c.active && r.idle == c.idle
  {
  }
}
