/** rt_pop_req in place on any queue, also when the target of a request is gone. */
module RtxPending {
  import opened Links
  import opened TaskLists
  import opened RtxOrder
  import opened Delays
  import RtxList
  import opened RtxSched
  import opened RtxPlaces
  import opened RtxRest
  import opened RtxSpec
  import opened RtxObjects
  import opened RtxKeeps
  import opened RtxFacts
  import opened RtxScheduler
  import opened RtxKernel
  import RtxDrain

  /** What the loop needs of the lists: a task that waits for events, active or not, is on none. */
  ghost predicate CoreFit(c: Core) {
    && Separate(c.g) && RtxList.Typed(c.g, c.kind)
    && (forall t :: t in c.g.tasks ==> t in c.prio && t in c.state)
    && (forall t :: t in c.g.tasks && EventWait(c.State(t)) ==> Loose(c.g, t))
  }

  /** The fields that it reads exist. */
  ghost predicate FieldsFit(k: KState) {
    && (forall t :: t in k.c.g.tasks ==> t in k.events && t in k.waits && t in k.msg)
    && (forall h :: h in k.c.g.lists && h != RDY ==>
          match At(k.c.kind, h, RtxList.TCB)
          case SCB => h in k.tokens
          case MUCB => h in k.mut
          case MCB => h in k.mbx
          case _ => true)
  }

  ghost predicate Fit(k: KState) {
    CoreFit(k.c) && FieldsFit(k)
  }

  /** The requests name what memory has, and no block that looks like a waiting task. */
  ghost predicate Named(k: KState, q: Request) {
    match q
    case EvtReq(t, _) => t in k.c.g.tasks
    case SemReq(h) =>
      && h in k.c.g.lists && h != RDY && At(k.c.kind, h, RtxList.TCB) != RtxList.HCB
      && (At(k.c.kind, h, RtxList.TCB) == RtxList.TCB ==> !RtxDrain.LooksWaiting(k, h))
  }

  lemma FitQueues(c: Core, h: Ptr)
    requires CoreFit(c) && h in c.g.lists && (h == RDY || c.g.lists[h] != [])
    ensures Queueable(c, h)
  {
    forall i | 0 <= i < |c.g.lists[h]|
      ensures c.g.lists[h][i] in c.prio
    {
      var t := c.g.lists[h][i];
      assert t in c.g.tasks;
    }
  }

  lemma ReadyFit(c: Core, t: Ptr, i: nat)
    requires CoreFit(c) && Loose(c.g, t) && i <= |c.Ready()|
    ensures CoreFit(ReadyAt(c, i, t))
  {
    hide Separate;
    SeparateReady(c.g);
    SeparatePut(c.g, RDY, i, t);
  }

  lemma SeparateReady(g: Shape)
    requires Separate(g)
    ensures RDY in g.lists
  {
  }

  lemma FirstFit(c: Core, h: Ptr)
    requires CoreFit(c) && h in c.g.lists && h != RDY && c.g.lists[h] != []
    ensures var t, c1 := c.g.lists[h][0], WakeFirst(c, h);
            CoreFit(c1) && Loose(c1.g, t) && t in c1.prio && c1.g.tasks == c.g.tasks
  {
    hide DelayDrop;
    SeparatePop(c.g, h);
    assert c.g.lists[h][0] in c.g.tasks;
  }

  lemma WokenFit(c: Core, h: Ptr)
    requires CoreFit(c) && h in c.g.lists && h != RDY && c.g.lists[h] != []
    ensures CoreFit(ToReady(WakeFirst(c, h), c.g.lists[h][0]))
    ensures Queueable(c, h) && Queueable(WakeFirst(c, h), RDY)
  {
    hide CoreFit, WakeFirst, Queueable, InsertPos, TaskLists.Loose;
    var t, c1 := c.g.lists[h][0], WakeFirst(c, h);
    FirstFit(c, h);
    FitQueues(c, h);
    FitReady(c1);
    FitQueues(c1, RDY);
    ReadyFit(c1, t, InsertPos(c1.prio, c1.Ready(), c1.Prio(t)));
  }

  lemma FitReady(c: Core)
    requires CoreFit(c)
    ensures RDY in c.g.lists && NULL !in c.g.tasks
  {
  }

  lemma RestFit(c: Core)
    requires AtRest(c)
    ensures CoreFit(ReadyAt(c, 0, c.run))
  {
    hide InOrder, Sorted;
    forall t | t in c.g.tasks && EventWait(c.State(t))
      ensures Loose(c.g, t)
    {
      assert Placed(c, t);
    }
    assert Placed(c, c.run);
    ReadyFit(c, c.run, 0);
  }

  lemma InvFields(k: KState)
    requires KInv(k)
    ensures FieldsFit(k)
  {
    hide AtRest, RingOk;
    forall t | t in k.c.g.tasks
      ensures t in k.events && t in k.waits && t in k.msg
    {
      assert FlagsOk(k, t);
    }
    forall h | h in k.c.g.lists && h != RDY
      ensures ObjectOk(k, h)
    {
    }
  }

  /** Where rt_pop_req's loop begins. */
  lemma StartFit(k: KState, qs: seq<Request>)
    requires KInv(k) && RtxDrain.Known(k, qs) && Plain(k, qs)
    ensures var k0 := k.(c := ReadyAt(k.c, 0, k.c.run)); Fit(k0) && forall i :: 0 <= i < |qs| ==> Named(k0, qs[i])
  {
    hide KInv, AtRest, CoreFit, ReadyAt, RtxDrain.LooksWaiting;
    var k0 := k.(c := ReadyAt(k.c, 0, k.c.run));
    RtxDrain.InvParts(k);
    RestFit(k.c);
    InvFields(k);
    RtxDrain.FrontType(k.c);
    SameObjects(k.c);
    forall i | 0 <= i < |qs|
      ensures Named(k0, qs[i])
    {
      assert RtxDrain.Queueable(k, qs[i]);
      if qs[i].SemReq? {
        RtxDrain.SameLook(k, qs[i].sem);
      }
    }
  }

  lemma SameObjects(c: Core)
    requires AtRest(c)
    ensures ReadyAt(c, 0, c.run).g.lists.Keys == c.g.lists.Keys
  {
    hide Sched, Ins;
    SettledSched(c);
    SchedHeads(c, {}, c.run);
  }

  /** No release is for a block that looks like a waiting task. */
  ghost predicate Plain(k: KState, qs: seq<Request>) {
    forall i :: 0 <= i < |qs| && qs[i].SemReq? && At(k.c.kind, qs[i].sem, RtxList.TCB) == RtxList.TCB ==>
      !RtxDrain.LooksWaiting(k, qs[i].sem)
  }

  // ----- what one request keeps

  /** The lists and fields after a step, apart from values. */
  ghost predicate SameNames(k: KState, r: KState) {
    && r.c.kind == k.c.kind && r.c.g.tasks == k.c.g.tasks && r.c.g.lists.Keys == k.c.g.lists.Keys
    && k.events.Keys <= r.events.Keys && k.waits.Keys <= r.waits.Keys && k.msg.Keys <= r.msg.Keys
    && k.tokens.Keys <= r.tokens.Keys && k.mut.Keys <= r.mut.Keys && k.mbx.Keys <= r.mbx.Keys
  }

  lemma FieldsKept(k: KState, r: KState)
    requires FieldsFit(k) && SameNames(k, r)
    ensures FieldsFit(r)
  {
  }

  lemma WakeNames(k: KState, h: Ptr, ret: Ret)
    requires CoreFit(k.c) && h in k.c.g.lists && h != RDY && k.List(h) != []
    ensures CoreFit(RtxSpec.WakeReady(k, h, ret).c) && SameNames(k, RtxSpec.WakeReady(k, h, ret))
  {
    hide CoreFit, DelayDrop, InsertPos, Ins;
    WokenFit(k.c, h);
    FitReady(k.c);
  }

  lemma SignalNames(k: KState, t: Ptr, flags: bv16)
    requires CoreFit(k.c) && t in k.c.g.tasks
    ensures CoreFit(RtxSpec.EvtPsh(k, t, flags).c) && SameNames(k, RtxSpec.EvtPsh(k, t, flags))
    ensures Completes(k, t, flags) ==> Loose(k.c.g, t) && t in k.c.prio
  {
    hide RtxSpec.Signal, Completes, ToReady, CoreFit;
    RtxDrain.SignalCore(k, t, flags);
    RtxDrain.SignalRest(k, t, flags);
    RtxDrain.SignalMaps(k, t, flags);
    if Completes(k, t, flags) {
      WaitsLoose(k, t, flags);
      DelayFit(k.c, RtxSpec.Signal(k, t, flags).c.d);
      ReadyNames(RtxSpec.Signal(k, t, flags).c, t);
    } else {
      DelayFit(k.c, RtxSpec.Signal(k, t, flags).c.d);
    }
  }

  lemma WaitsLoose(k: KState, t: Ptr, flags: bv16)
    requires CoreFit(k.c) && t in k.c.g.tasks && Completes(k, t, flags)
    ensures Loose(k.c.g, t) && t in k.c.prio
  {
    hide HasAll, HasAny, Merge;
  }

  lemma DelayFit(c: Core, d: seq<Delay>)
    requires CoreFit(c)
    ensures CoreFit(c.(d := d))
  {
  }

  lemma ReadyNames(c: Core, t: Ptr)
    requires CoreFit(c) && Loose(c.g, t)
    ensures var r := ToReady(c, t);
            CoreFit(r) && r.kind == c.kind && r.g.tasks == c.g.tasks && r.g.lists.Keys == c.g.lists.Keys
  {
    hide CoreFit, InsertPos, Ins;
    FitReady(c);
    ReadyFit(c, t, InsertPos(c.prio, c.Ready(), c.Prio(t)));
  }

  lemma ReleaseFits(k: KState, h: Ptr, r: KState)
    requires Fit(k) && Named(k, SemReq(h)) && RtxDrain.DrainOne(k, SemReq(h)) == RtxDrain.Drained(r)
    ensures CoreFit(r.c) && SameNames(k, r)
  {
    hide CoreFit, FieldsFit, SameNames, RtxSpec.SemPsh, RtxDrain.MutPsh, RtxDrain.MbxPsh, RtxDrain.AsTask, RtxDrain.LooksWaiting;
    if At(k.c.kind, h, RtxList.TCB) == RtxList.SCB {
      SemFits(k, h);
    } else if At(k.c.kind, h, RtxList.TCB) == RtxList.MUCB {
      MutFits(k, h);
    } else if At(k.c.kind, h, RtxList.TCB) == RtxList.MCB {
      MbxFits(k, h, r);
    } else {
      ItselfFits(k);
    }
  }

  lemma ItselfFits(k: KState)
    ensures SameNames(k, k)
  {
  }

  lemma SemFits(k: KState, h: Ptr)
    requires CoreFit(k.c) && h in k.c.g.lists && h != RDY
    ensures CoreFit(RtxSpec.SemPsh(k, h).c) && SameNames(k, RtxSpec.SemPsh(k, h))
  {
    hide CoreFit, RtxSpec.WakeReady;
    if k.List(h) != [] {
      WakeNames(k, h, Val(1));
    }
  }

  lemma MutFits(k: KState, h: Ptr)
    requires CoreFit(k.c) && h in k.c.g.lists && h != RDY
    ensures CoreFit(RtxDrain.MutPsh(k, h).c) && SameNames(k, RtxDrain.MutPsh(k, h))
  {
    hide CoreFit, RtxSpec.WakeReady;
    if k.List(h) != [] {
      WakeNames(k, h, Val(1));
    }
  }

  lemma MbxFits(k: KState, h: Ptr, r: KState)
    requires CoreFit(k.c) && h in k.c.g.lists && h != RDY && RtxDrain.MbxPsh(k, h, 0) == RtxDrain.Drained(r)
    ensures CoreFit(r.c) && SameNames(k, r)
  {
    hide CoreFit, RtxSpec.WakeReady, Store, U16;
    if k.List(h) != [] {
      WakeNames(k, h, Message(0));
      WakeNames(RtxDrain.Refilled(k, h), h, Val(0));
    }
  }

  lemma StepFits(k: KState, q: Request, r: KState)
    requires Fit(k) && Named(k, q) && RtxDrain.DrainOne(k, q) == RtxDrain.Drained(r)
    ensures Fit(r) && SameNames(k, r)
  {
    hide CoreFit, FieldsFit, RtxSpec.EvtPsh, SameNames;
    match q {
      case SemReq(h) => ReleaseFits(k, h, r);
      case EvtReq(t, flags) =>
        RtxDrain.DrainEvent(k, t, flags);
        SignalNames(k, t, flags);
    }
    FieldsKept(k, r);
  }

  lemma NamedKept(k: KState, q: Request, r: KState, q': Request)
    requires Fit(k) && Named(k, q) && Named(k, q') && RtxDrain.DrainOne(k, q) == RtxDrain.Drained(r)
    ensures Named(r, q')
  {
    hide CoreFit, FieldsFit, RtxDrain.DrainOne, RtxDrain.LooksWaiting, RtxDrain.Effect;
    StepFits(k, q, r);
    if q'.SemReq? && At(k.c.kind, q'.sem, RtxList.TCB) == RtxList.TCB {
      NoTask(k.c, q'.sem);
      if q == q' {
        RtxDrain.OwnBlock(k, r, q'.sem);
      } else {
        if q.SemReq? { NoTask(k.c, q.sem); }
        RtxDrain.OtherBlock(k, q, r, q'.sem);
        LooksSame(k, r, q'.sem);
      }
    }
  }

  lemma NoTask(c: Core, h: Ptr)
    requires CoreFit(c) && h in c.g.lists
    ensures h !in c.g.tasks
  {
  }

  lemma LooksSame(k: KState, r: KState, h: Ptr)
    requires RtxDrain.SameBlock(k, r, h)
    ensures RtxDrain.LooksWaiting(r, h) == RtxDrain.LooksWaiting(k, h)
  {
    hide Satisfies;
  }

  // ----- in place

  /** The first waiter of h becomes ready with r as its result. */
  method WakeReady(kn: Kernel, h: Ptr, r: Ret)
    requires kn.Rep() && CoreFit(kn.s.C()) && h in kn.s.g.lists && h != RDY && kn.s.g.lists[h] != []
    modifies kn, kn.s
    ensures kn.Rep() && kn.Abs() == RtxSpec.WakeReady(old(kn.Abs()), h, r)
  {
    hide Scheduler.Rep, Scheduler.C, CoreFit, Queueable, ToReady, WakeFirst, TaskLists.Loose;
    WokenFit(kn.s.C(), h);
    FirstFit(kn.s.C(), h);
    WakePrio(kn.s.C(), h);
    var t := kn.s.Unblock(h);
    kn.s.ResumeReady(t);
    kn.ret := kn.ret[t := r];
  }

  /** rt_evt_psh */
  method EvtPsh(kn: Kernel, t: Ptr, flags: bv16)
    requires kn.Rep() && Fit(kn.Abs()) && t in kn.s.g.tasks
    modifies kn, kn.s
    ensures kn.Rep() && kn.Abs() == RtxSpec.EvtPsh(old(kn.Abs()), t, flags)
  {
    hide Kernel.Rep, Scheduler.C, Kernel.Abs, CoreFit, RtxSpec.Signal, Completes, ToReady, TaskLists.Loose, Queueable;
    SignalNames(kn.Abs(), t, flags);
    FitFields(kn.Abs(), t);
    SignalTouches(kn.Abs(), t, flags);
    var woken := kn.Signal(t, flags);
    if woken {
      kn.ResumeReady(t);
    }
  }

  lemma FitFields(k: KState, t: Ptr)
    requires Fit(k) && t in k.c.g.tasks
    ensures t in k.events && t in k.waits && t in k.c.state && t in k.c.prio && Queueable(k.c, RDY)
  {
    hide Queueable;
    FitReady(k.c);
    FitQueues(k.c, RDY);
  }

  /** rt_sem_psh */
  method SemPsh(kn: Kernel, h: Ptr)
    requires kn.Rep() && Fit(kn.Abs()) && Named(kn.Abs(), SemReq(h)) && At(kn.s.kind, h, RtxList.TCB) == RtxList.SCB
    modifies kn, kn.s
    ensures kn.Rep() && kn.Abs() == RtxSpec.SemPsh(old(kn.Abs()), h)
  {
    hide Kernel.Rep, Scheduler.C, Kernel.Abs, CoreFit, RtxSpec.WakeReady, RtxSpec.StoreToken;
    var first := kn.Head(h);
    if first != NULL {
      WakeReady(kn, h, Val(1));
    } else {
      kn.StoreToken(h);
    }
  }

  /** rt_sem_psh on a mutex: the counter that it raises is the level. */
  method MutPsh(kn: Kernel, h: Ptr)
    requires kn.Rep() && Fit(kn.Abs()) && Named(kn.Abs(), SemReq(h)) && At(kn.s.kind, h, RtxList.TCB) == RtxList.MUCB
    modifies kn, kn.s
    ensures kn.Rep() && kn.Abs() == RtxDrain.MutPsh(old(kn.Abs()), h)
  {
    hide Kernel.Rep, Scheduler.C, Kernel.Abs, CoreFit, RtxSpec.WakeReady;
    var first := kn.Head(h);
    if first != NULL {
      WakeReady(kn, h, Val(1));
    } else {
      kn.SetMutex(h, kn.mut[h].(level := U16(kn.mut[h].level + 1)));
    }
  }

  /** rt_mbx_psh; os_error does not return. */
  method MbxPsh(kn: Kernel, h: Ptr, x: int) returns (halted: bool)
    requires kn.Rep() && Fit(kn.Abs()) && Named(kn.Abs(), SemReq(h)) && At(kn.s.kind, h, RtxList.TCB) == RtxList.MCB
    modifies kn, kn.s
    ensures kn.Rep()
    ensures RtxDrain.MbxPsh(old(kn.Abs()), h, x) == if halted then RtxDrain.Halted else RtxDrain.Drained(kn.Abs())
  {
    hide Kernel.Rep, Scheduler.C, Kernel.Abs, CoreFit, RtxSpec.WakeReady, Store, U16;
    var b := kn.mbx[h];
    var first := kn.Head(h);
    halted := false;
    if first != NULL {
      FirstFit(kn.s.C(), h);
      if b.state == 2 {
        SenderKnown(kn.Abs(), h);
        kn.SetMailbox(h, Store(b, kn.msg[first]).(count := U16(b.count + 1)));
        WakeReady(kn, h, Val(0));
      } else if b.state == 1 {
        WakeReady(kn, h, Message(x));
      }
    } else if b.count < b.size {
      kn.SetMailbox(h, Store(b, x).(count := b.count + 1));
    } else {
      halted := true;
    }
  }

  lemma SenderKnown(k: KState, h: Ptr)
    requires Fit(k) && h in k.c.g.lists && k.List(h) != []
    ensures k.List(h)[0] in k.msg
  {
    var t := k.c.g.lists[h][0];
    assert t in k.c.g.tasks;
  }

  /** One pass of the loop, by the type that the block has now. */
  method DrainOne(kn: Kernel, q: Request) returns (halted: bool)
    requires kn.Rep() && Fit(kn.Abs()) && Named(kn.Abs(), q)
    modifies kn, kn.s
    ensures kn.Rep()
    ensures RtxDrain.DrainOne(old(kn.Abs()), q) == if halted then RtxDrain.Halted else RtxDrain.Drained(kn.Abs())
  {
    hide Kernel.Rep, Scheduler.C, Kernel.Abs, Fit, RtxSpec.SemPsh, RtxSpec.EvtPsh, RtxDrain.MutPsh, RtxDrain.MbxPsh,
         RtxDrain.AsTask, RtxDrain.LooksWaiting;
    halted := false;
    match q {
      case EvtReq(t, flags) => EvtPsh(kn, t, flags);
      case SemReq(h) =>
        HasType(kn.Abs(), h);
        var ty := kn.s.kind[h];
        if ty == RtxList.SCB {
          SemPsh(kn, h);
        } else if ty == RtxList.MCB {
          halted := MbxPsh(kn, h, 0);
        } else if ty != RtxList.TCB {
          MutPsh(kn, h);
        }
    }
  }

  lemma HasType(k: KState, h: Ptr)
    requires Fit(k) && h in k.c.g.lists
    ensures h in k.c.kind
  {
  }

  lemma NextFits(k: KState, qs: seq<Request>, i: nat, r: KState)
    requires Fit(k) && i < |qs| && (forall j :: i <= j < |qs| ==> Named(k, qs[j])) && k.c.Ready() != []
    requires RtxDrain.DrainOne(k, qs[i]) == RtxDrain.Drained(r)
    ensures Fit(r) && r.c.Ready() != [] && forall j :: i < j < |qs| ==> Named(r, qs[j])
  {
    hide Fit, Named, RtxDrain.DrainOne, RtxDrain.Steady;
    StepFits(k, qs[i], r);
    NamedApart(k, qs[i]);
    RtxDrain.StepSteady(k, qs[i], r);
    StaysReady(k, r);
    forall j | i < j < |qs|
      ensures Named(r, qs[j])
    {
      NamedKept(k, qs[i], r, qs[j]);
    }
  }

  lemma NamedApart(k: KState, q: Request)
    requires Fit(k) && Named(k, q)
    ensures RtxDrain.Apart(k, q)
  {
    hide RtxDrain.LooksWaiting, FieldsFit;
  }

  lemma StaysReady(k: KState, r: KState)
    requires RtxDrain.Steady(k, r) && k.c.Ready() != []
    ensures r.c.Ready() != []
  {
    var x := k.c.Ready()[0];
    assert x in k.c.Ready();
  }

  lemma FitNext(k: KState)
    requires Fit(k)
    ensures Queueable(k.c, RDY)
  {
    hide Queueable;
    FitReady(k.c);
    FitQueues(k.c, RDY);
  }

  /** The loop. */
  method DrainLoop(kn: Kernel, qs: seq<Request>) returns (halted: bool)
    requires kn.Rep() && Fit(kn.Abs()) && kn.s.C().Ready() != [] && forall j :: 0 <= j < |qs| ==> Named(kn.Abs(), qs[j])
    modifies kn, kn.s
    ensures kn.Rep() && (!halted ==> Fit(kn.Abs()) && kn.s.C().Ready() != [])
    ensures RtxDrain.PushAny(old(kn.Abs()), qs) == if halted then RtxDrain.Halted else RtxDrain.Drained(kn.Abs())
  {
    hide Kernel.Rep, Scheduler.C, Kernel.Abs, Fit, Named, RtxDrain.DrainOne;
    ghost var k0 := kn.Abs();
    var i := 0;
    while i < |qs|
      invariant 0 <= i <= |qs| && kn.Rep() && Fit(kn.Abs()) && kn.s.C().Ready() != []
      invariant forall j :: i <= j < |qs| ==> Named(kn.Abs(), qs[j])
      invariant RtxDrain.PushAny(kn.Abs(), qs[i..]) == RtxDrain.PushAny(k0, qs)
    {
      ghost var k1 := kn.Abs();
      assert qs[i..][0] == qs[i] && qs[i..][1..] == qs[i + 1..];
      halted := DrainOne(kn, qs[i]);
      if halted {
        return;
      }
      NextFits(k1, qs, i, kn.Abs());
      i := i + 1;
    }
    assert qs[i..] == [];
    halted := false;
  }

  /** The first ready task is switched to. */
  method SwitchNext(kn: Kernel)
    requires kn.Rep() && Fit(kn.Abs()) && kn.s.C().Ready() != []
    modifies kn.s
    ensures kn.Rep() && kn.Abs() == old(kn.Abs()).(c := Commit(RtxSched.DispatchNext(old(kn.s.C()))))
  {
    hide Scheduler.Rep, Scheduler.C, Fit, Queueable, RtxSched.DispatchNext;
    FitNext(kn.Abs());
    kn.s.DispatchNext();
    kn.s.SwitchContext();
  }

  /**
   * rt_pop_req in place with any requests but releases for a block that looks like a waiting task: it ends in the
   * memory that DrainAny says, or stops.
   */
  method PopAny(kn: Kernel, qs: seq<Request>) returns (halted: bool)
    requires kn.Rep() && KInv(kn.Abs()) && RtxDrain.Known(kn.Abs(), qs) && Plain(kn.Abs(), qs)
    modifies kn, kn.s
    ensures kn.Rep()
    ensures RtxDrain.DrainAny(old(kn.Abs()), qs) == if halted then RtxDrain.Halted else RtxDrain.Drained(kn.Abs())
  {
    hide Kernel.Rep, Scheduler.C, Kernel.Abs, KInv, AtRest, Sched, Fit, Named, Plain, RtxDrain.PushAny, ReadyAt,
         RtxSched.DispatchNext, RtxDrain.Known;
    StartFit(kn.Abs(), qs);
    RtxDrain.InvParts(kn.Abs());
    kn.Suspend();
    halted := DrainLoop(kn, qs);
    if !halted {
      SwitchNext(kn);
    }
  }
}
