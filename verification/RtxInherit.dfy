/** Priority inheritance: exactly when the owner of a mutex is as urgent as everybody who waits for it. */
module RtxInherit {
  import opened Links
  import opened TaskLists
  import opened RtxOrder
  import opened Delays
  import opened RtxList
  import opened RtxSched
  import opened RtxPlaces
  import opened RtxRest
  import opened RtxSpec
  import opened RtxObjects
  import opened RtxFrames
  import opened RtxWaits
  import opened RtxMail
  import opened RtxDrain

  /** The owner of m has at least the priority of every waiter. */
  ghost predicate Covers(k: KState, m: Ptr) {
    forall x :: x in k.List(m) ==> k.c.Prio(At(k.mut, m, FREE).owner) >= k.c.Prio(x)
  }

  lemma ReprioWaiters(c: Core, t: Ptr, p: nat, m: Ptr)
    requires Separate(c.g)
    ensures forall x :: x in Reprio(c, t, p).List(m) <==> x in c.List(m)
  {
    hide InsertPos;
    if OnList(c.g, t) && c.g.on[t] == m {
      var s, c1 := c.List(m), Reprio(c, t, p);
      var j := Index(s, t);
      DelMembers(s, j);
      InsMembers(Del(s, j), InsertPos(c1.prio, Del(s, j), p), t);
    }
  }

  lemma QueueWaiters(c: Core, m: Ptr)
    ensures forall x :: x in QueueRun(c, m).List(m) <==> x == c.run || x in c.List(m)
    ensures QueueRun(c, m).prio == c.prio
  {
    hide InsertPos, Ins;
    InsMembers(c.List(m), InsertPos(c.prio, c.List(m), c.Prio(c.run)), c.run);
  }

  lemma BlockLists(c: Core, m: Ptr, n: nat, st: TaskState)
    requires m != RDY
    ensures Block(c, n, st).List(m) == c.List(m) && Block(c, n, st).prio == c.prio
  {
    hide DispatchNext, DelayPut;
    var d := if n < NO_TIMEOUT then DelayPut(c.d, c.run, n) else c.d;
    var c1 := c.(d := d, state := c.state[c.run := st]);
    PreemptCheckTouches(c1);
    NextPrio(c1);
    assert DispatchNext(c1).List(m) == c1.List(m);
  }

  /** A task that blocks on m joins its waiters, and no priority changes. */
  lemma BlockWaiters(k: KState, m: Ptr, n: nat)
    requires m != RDY
    ensures var k' := BlockOn(k, m, n, WAIT_MUT);
            && k'.mut == k.mut && k'.c.prio == k.c.prio
            && forall x :: x in k'.List(m) <==> x == k.c.run || x in k.List(m)
  {
    hide Block, QueueRun;
    QueueWaiters(k.c, m);
    BlockLists(QueueRun(k.c, m), m, n, WAIT_MUT);
  }

  lemma NextPrio(c: Core)
    ensures DispatchNext(c).prio == c.prio
  {
  }

  /**
   * The caller of a mutex that another task owns joins the waiters. Afterwards the owner covers them all exactly
   * if, where the owner is given the caller's priority, no other waiter has a higher one, and where it is left
   * alone, it had at least the caller's and everybody's. The test is on the priority saved at the first lock,
   * so an owner that was raised already can be lowered.
   */
  lemma InheritsExactly(k: KState, m: Ptr, n: nat)
    requires AtRest(k.c) && IsObject(k, m, MUCB) && n > 0
    requires At(k.mut, m, FREE).level > 0 && At(k.mut, m, FREE).owner != k.c.run
    ensures var mu, p := At(k.mut, m, FREE), k.c.Prio(k.c.run);
            Covers(MutWait(k, m, n), m) <==>
            if mu.prio < p then forall x :: x in k.List(m) && x != mu.owner ==> k.c.Prio(x) <= p
            else k.c.Prio(mu.owner) >= p && Covers(k, m)
  {
    hide AtRest, BlockOn, Reprio;
    var mu, run, p := At(k.mut, m, FREE), k.c.run, k.c.Prio(k.c.run);
    var c := if mu.prio < p then Reprio(k.c, mu.owner, p) else k.c;
    SettledSched(k.c);
    ReprioWaiters(k.c, mu.owner, p, m);
    ReprioFields(k.c, mu.owner, p);
    var k1 := k.(c := c);
    BlockWaiters(k1, m, n);
    var k' := BlockOn(k1, m, n, WAIT_MUT);
    assert MutWait(k, m, n) == k';
    assert k.List(m) == k.c.List(m) && k1.List(m) == c.List(m);
    if mu.prio < p {
      RaisedCovers(k, k', m);
    } else {
      LeftCovers(k, k', m);
    }
  }

  lemma RaisedCovers(k: KState, k': KState, m: Ptr)
    requires k'.mut == k.mut && k'.c.prio == k.c.prio[At(k.mut, m, FREE).owner := k.c.Prio(k.c.run)]
    requires At(k.mut, m, FREE).owner != k.c.run && forall x :: x in k'.List(m) <==> x == k.c.run || x in k.List(m)
    ensures Covers(k', m) <==>
            forall x :: x in k.List(m) && x != At(k.mut, m, FREE).owner ==> k.c.Prio(x) <= k.c.Prio(k.c.run)
  {
    var owner, p := At(k.mut, m, FREE).owner, k.c.Prio(k.c.run);
    assert forall x :: k'.c.Prio(x) == if x == owner then p else k.c.Prio(x);
  }

  lemma LeftCovers(k: KState, k': KState, m: Ptr)
    requires k'.mut == k.mut && k'.c.prio == k.c.prio
    requires forall x :: x in k'.List(m) <==> x == k.c.run || x in k.List(m)
    ensures Covers(k', m) <==> k.c.Prio(At(k.mut, m, FREE).owner) >= k.c.Prio(k.c.run) && Covers(k, m)
  {
    var owner := At(k.mut, m, FREE).owner;
    assert forall x :: k'.c.Prio(x) == k.c.Prio(x);
    assert k.c.run in k'.List(m);
  }

  // ----- which calls can break it

  lemma MovesPrio(c: Core, t: Ptr)
    ensures Dispatch(c, t).prio == c.prio && ToReady(c, t).prio == c.prio
    ensures DispatchNext(c).prio == c.prio && PreemptCheck(c).prio == c.prio
  {
    hide Put, InsertPos;
  }

  lemma WokenPrio(c: Core, h: Ptr)
    requires c.List(h) != []
    ensures WakeFirst(c, h).prio == c.prio
  {
  }

  lemma BlockPrio(c: Core, n: nat, st: TaskState)
    ensures Block(c, n, st).prio == c.prio
  {
    hide DispatchNext, DelayPut;
    if n != 0 {
      var d := if n < NO_TIMEOUT then DelayPut(c.d, c.run, n) else c.d;
      MovesPrio(c.(d := d, state := c.state[c.run := st]), NULL);
    }
  }

  lemma BlockOnPrio(k: KState, h: Ptr, n: nat, st: TaskState)
    ensures BlockOn(k, h, n, st).c.prio == k.c.prio
  {
    hide Block, QueueRun;
    QueueWaiters(k.c, h);
    BlockPrio(QueueRun(k.c, h), n, st);
  }

  lemma {:induction false} WakeAllPrio(c: Core, h: Ptr)
    ensures WakeAll(c, h).prio == c.prio
    decreases |c.List(h)|
  {
    hide ToReady, DelayDrop;
    if h != RDY && c.List(h) != [] {
      var c1 := ToReady(WakeFirst(c, h), c.List(h)[0]);
      MovesPrio(WakeFirst(c, h), c.List(h)[0]);
      WokenShorter(c, h);
      WakeAllPrio(c1, h);
    }
  }

  lemma {:induction false} ExpirePrio(c: Core)
    ensures Expire(c).prio == c.prio
    decreases |c.d|
  {
    hide TimeUp;
    if c.d != [] && c.d[0].rem == 1 {
      TimeUpFields(c);
      TimeUpPrio(c);
      ExpirePrio(TimeUp(c));
    }
  }

  lemma TimeUpPrio(c: Core)
    requires c.d != []
    ensures TimeUp(c).prio == c.prio
  {
    hide Put, InsertPos, Unlink;
  }

  lemma WakePrios(k: KState, h: Ptr, r: Ret)
    requires k.List(h) != []
    ensures Wake(k, h, r).c.prio == k.c.prio && WakeReady(k, h, r).c.prio == k.c.prio
  {
    hide Dispatch, ToReady, WakeFirst;
    WokenPrio(k.c, h);
    MovesPrio(WakeFirst(k.c, h), k.List(h)[0]);
  }

  lemma SemPrio(k: KState, h: Ptr, n: nat)
    ensures SemSend(k, h).c.prio == k.c.prio && SemPsh(k, h).c.prio == k.c.prio && SemWait(k, h, n).c.prio == k.c.prio
  {
    hide Wake, WakeReady, BlockOn;
    if k.List(h) != [] {
      WakePrios(k, h, Val(1));
    }
    BlockOnPrio(k, h, n, WAIT_SEM);
  }

  lemma DiscardPrio(k: KState, h: Ptr)
    ensures Discard(k, h).c.prio == k.c.prio
  {
    hide WakeAll, PreemptCheck, RetAll;
    WakeAllPrio(k.c, h);
    MovesPrio(WakeAll(k.c, h), NULL);
  }

  lemma EvtPrio(k: KState, t: Ptr, flags: bv16)
    ensures EvtSet(k, t, flags).c.prio == k.c.prio && EvtPsh(k, t, flags).c.prio == k.c.prio
  {
    hide Dispatch, ToReady, Signal, Completes;
    SignalCore(k, t, flags);
    MovesPrio(Signal(k, t, flags).c, t);
  }

  lemma EvtWaitPrio(k: KState, flags: bv16, n: nat, and: bool)
    ensures EvtWait(k, flags, n, and).c.prio == k.c.prio
  {
    hide Block, HasAll, HasAny, Without, Common;
    BlockPrio(k.c, n, if and then WAIT_AND else WAIT_OR);
  }

  lemma MbxSendPrio(k: KState, h: Ptr, x: int, n: nat)
    ensures MbxSend(k, h, x, n).c.prio == k.c.prio
  {
    hide Wake, BlockOn, Store, Return;
    var b := At(k.mbx, h, NO_MAILBOX);
    ReturnFrame(k, OS_R_OK);
    if k.List(h) != [] {
      WakePrios(Return(k, OS_R_OK), h, Message(x));
    }
    ReturnFrame(k, OS_R_TMO);
    ReturnFrame(k.(mbx := k.mbx[h := Store(b, x).(count := b.count + 1)]), OS_R_OK);
    BlockOnPrio(k.(mbx := k.mbx[h := if k.List(h) == [] then b.(state := 2) else b], msg := k.msg[k.c.run := x]), h, n, WAIT_MBX);
  }

  lemma MbxWaitPrio(k: KState, h: Ptr, n: nat)
    ensures MbxWait(k, h, n).c.prio == k.c.prio
  {
    hide Wake, BlockOn, Store, Oldest, Return;
    var b := At(k.mbx, h, NO_MAILBOX);
    var k1 := k.(ret := k.ret[k.c.run := Message(Oldest(b))]);
    if k.List(h) != [] {
      WakePrios(k1.(mbx := k.mbx[h := Store(b.(last := Step(b.last, b.size)), At(k.msg, k.List(h)[0], 0))]), h, Val(0));
    }
    ReturnFrame(k, OS_R_TMO);
    BlockOnPrio(k.(mbx := k.mbx[h := if k.List(h) == [] then b.(state := 1) else b]), h, n, WAIT_MBX);
  }

  lemma {:induction false} PushAllPrio(k: KState, qs: seq<Request>)
    ensures PushAll(k, qs).c.prio == k.c.prio
    decreases |qs|
  {
    hide SemPsh, EvtPsh;
    if qs != [] {
      match qs[0] {
        case SemReq(h) => SemPrio(k, h, 0);
        case EvtReq(t, flags) => EvtPrio(k, t, flags);
      }
      PushAllPrio(Push(k, qs[0]), qs[1..]);
    }
  }

  lemma TickPrio(k: KState)
    ensures Tick(k).c.prio == k.c.prio
  {
    hide ReadyAt, Rotate, NextRobin, Expire, DispatchNext;
    var c0 := ReadyAt(k.c, 0, k.c.run);
    FrontPrio(k.c);
    var k1 := ChkRobin(k.(c := c0));
    assert c0.Ready() != [] ==> Rotate(c0).prio == c0.prio by { RotatePrio(c0); }
    assert k1.c.prio == k.c.prio;
    ExpirePrio(k1.c);
    MovesPrio(DecDly(k1.c), NULL);
  }

  lemma FrontPrio(c: Core)
    ensures ReadyAt(c, 0, c.run).prio == c.prio
  {
  }

  lemma RotatePrio(c: Core)
    ensures c.Ready() != [] ==> Rotate(c).prio == c.prio
  {
  }

  lemma PopPrio(k: KState, qs: seq<Request>)
    ensures PopReq(k, qs).c.prio == k.c.prio
  {
    hide ReadyAt, PushAll, DispatchNext;
    FrontPrio(k.c);
    var k0 := k.(c := ReadyAt(k.c, 0, k.c.run));
    PushAllPrio(k0, qs);
    MovesPrio(PushAll(k0, qs).c, NULL);
  }

  lemma TasksPrio(c: Core, t: Ptr)
    ensures TskPass(c).prio == c.prio && TskDelete(c, t).prio == c.prio
  {
    hide DispatchNext, Put, InsertPos, Unlink, DelayDrop;
    MovesPrio(c.(active := c.active - {c.run}, state := c.state[c.run := INACTIVE]), NULL);
  }

  /** Calls that set the priority of a task. */
  predicate SetsPrio(a: Call) {
    a.SetPrio? || a.Create? || a.WaitMut? || a.ReleaseMut? || a.DeleteMut?
  }

  lemma CallPrio(k: KState, a: Call)
    requires !SetsPrio(a)
    ensures Apply(k, a).c.prio == k.c.prio
  {
    hide Apply;
    if a.SendSem? || a.WaitSem? || a.DeleteSem? || a.SetEvt? || a.WaitEvt? || a.ClrEvt? || a.SendMbx? || a.WaitMbx? {
      ServicePrio(k, a);
    } else {
      TimePrio(k, a);
    }
  }

  lemma SentPrio(k: KState, h: Ptr)
    ensures SemSend(Return(k, OS_R_OK), h).c.prio == k.c.prio
  {
    hide Return, SemSend, SemPsh, SemWait;
    SemPrio(Return(k, OS_R_OK), h, 0);
    ReturnFrame(k, OS_R_OK);
  }

  lemma ClearPrio(k: KState, t: Ptr, flags: bv16)
    ensures EvtClr(k, t, flags).c.prio == k.c.prio
  {
  }

  lemma ServicePrio(k: KState, a: Call)
    requires a.SendSem? || a.WaitSem? || a.DeleteSem? || a.SetEvt? || a.WaitEvt? || a.ClrEvt? || a.SendMbx? || a.WaitMbx?
    ensures Apply(k, a).c.prio == k.c.prio
  {
    hide Apply;
    if a.SendSem? || a.WaitSem? || a.DeleteSem? {
      SemCallPrio(k, a);
    } else if a.SetEvt? || a.WaitEvt? || a.ClrEvt? {
      EvtCallPrio(k, a);
    } else {
      ApplySend(k, a);
      if a.SendMbx? {
        MbxSendPrio(k, a.obj, a.msg, a.ticks);
      } else {
        MbxWaitPrio(k, a.obj, a.ticks);
      }
    }
  }

  lemma SemCallPrio(k: KState, a: Call)
    requires a.SendSem? || a.WaitSem? || a.DeleteSem?
    ensures Apply(k, a).c.prio == k.c.prio
  {
    hide Return, SemSend, SemPsh, SemWait, Discard;
    match a {
      case SendSem(h) => SentPrio(k, h);
      case WaitSem(h, n) => SemPrio(k, h, n);
      case DeleteSem(h) => DiscardPrio(k, h);
    }
  }

  lemma EvtCallPrio(k: KState, a: Call)
    requires a.SetEvt? || a.WaitEvt? || a.ClrEvt?
    ensures Apply(k, a).c.prio == k.c.prio
  {
    hide EvtSet, EvtPsh, EvtWait, EvtClr;
    match a {
      case SetEvt(t, flags) => EvtPrio(k, t, flags);
      case WaitEvt(flags, n, and) => EvtWaitPrio(k, flags, n, and);
      case ClrEvt(t, flags) => ClearPrio(k, t, flags);
    }
  }

  lemma TimePrio(k: KState, a: Call)
    requires a.Pass? || a.Delete? || a.Wait? || a.InitSem? || a.InitMut? || a.InitMbx? || a.SysTick? || a.PendSV?
    ensures Apply(k, a).c.prio == k.c.prio
  {
    hide Return, Tick, PopReq, Block, TskPass, TskDelete;
    match a {
      case Pass => TasksPrio(k.c, NULL);
      case Delete(t) =>
        TasksPrio(k.c, t);
        ApplyDelete(k, t);
      case Wait(n) => BlockPrio(k.c, n, WAIT_DLY);
      case SysTick => TickPrio(k);
      case PendSV(qs) => PopPrio(k, qs);
      case _ =>
    }
  }

  lemma DoWaiters(k: KState, a: Call, m: Ptr)
    ensures Do(k, a).List(m) == Apply(k, a).List(m) && Do(k, a).c.prio == Apply(k, a).c.prio
  {
    hide Apply;
  }

  lemma StillWaits(k: KState, c': Core, gone: seq<Ptr>, m: Ptr)
    requires LeftBy(k, c', gone, m)
    ensures forall x :: x in c'.List(m) ==> x in k.List(m)
  {
    forall x | x in c'.List(m)
      ensures x in k.List(m)
    {
      assert x in multiset(c'.List(m));
      assert x in multiset(k.List(m));
    }
  }

  lemma MutexNamed(k: KState, a: Call, m: Ptr)
    requires Legal(k, a) && IsObject(k, m, MUCB) && !a.WaitMut? && !a.ReleaseMut? && !a.DeleteMut?
    ensures Elsewhere(a, m)
  {
    if a.PendSV? {
      assert forall i :: 0 <= i < |a.requests| ==> RequestOk(k, a.requests[i]);
    }
  }

  lemma CreatedApart(k: KState, t: Ptr, m: Ptr)
    requires KInv(k) && IsObject(k, m, MUCB) && At(k.mut, m, FREE).level > 0 && t in k.c.g.tasks && !k.c.Live(t)
    ensures t !in k.List(m) && t != At(k.mut, m, FREE).owner
  {
    hide Objects;
    assert ObjectOk(k, m) by { ObjectHere(k, m); }
    ListedOn(k.c, t, m);
    assert Placed(k.c, t);
  }

  lemma ObjectHere(k: KState, m: Ptr)
    requires KInv(k) && m in k.c.g.lists && m != RDY
    ensures ObjectOk(k, m)
  {
    hide AtRest, ObjectOk;
  }

  lemma CreatePrio(k: KState, t: Ptr, p: nat)
    ensures Apply(k, Create(t, p)).c.prio == k.c.prio[t := p]
  {
    hide Dispatch;
    var c := k.c;
    MovesPrio(c.(g := Fresh(c.g, t), active := c.active + {t}, prio := c.prio[t := p], state := c.state[t := READY]), t);
  }

  /**
   * While the owner of m holds it at the same level, only these calls can end that it covers its waiters: a change of
   * priority, a lock, and the release or deletion of a mutex, which gives a saved priority back.
   */
  lemma CoversBreaks(k: KState, a: Call, m: Ptr)
    requires KInv(k) && Legal(k, a) && IsObject(k, m, MUCB) && At(k.mut, m, FREE).level > 0
    requires At(Do(k, a).mut, m, FREE) == At(k.mut, m, FREE) && Covers(k, m) && !Covers(Do(k, a), m)
    ensures a.SetPrio? || a.WaitMut? || a.ReleaseMut? || a.DeleteMut?
  {
    hide KInv, Legal, Apply, Do, LeftBy, Leaving, Covers;
    if !(a.SetPrio? || a.WaitMut? || a.ReleaseMut? || a.DeleteMut?) {
      MutexNamed(k, a, m);
      OthersLeave(k, a, m);
      StillWaits(k, Apply(k, a).c, Leaving(k, a, m), m);
      DoWaiters(k, a, m);
      if a.Create? {
        CreateLegal(k, a);
        CreatedApart(k, a.task, m);
        CreatePrio(k, a.task, a.prio);
      } else {
        CallPrio(k, a);
      }
      SameCovers(k, Do(k, a), m);
    }
  }

  lemma CreateLegal(k: KState, a: Call)
    requires Legal(k, a) && a.Create?
    ensures a.task in k.c.g.tasks && !k.c.Live(a.task)
  {
  }

  lemma SameCovers(k: KState, k': KState, m: Ptr)
    requires Covers(k, m) && (forall x :: x in k'.List(m) ==> x in k.List(m)) && At(k'.mut, m, FREE) == At(k.mut, m, FREE)
    requires forall x :: x in k.List(m) || x == At(k.mut, m, FREE).owner ==> k'.c.Prio(x) == k.c.Prio(x)
    ensures Covers(k', m)
  {
  }
}
