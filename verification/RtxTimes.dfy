/** How long a blocking call waits: exactly as many ticks as it was given, over every run. */
module RtxTimes {
  import opened Links
  import opened TaskLists
  import opened RtxOrder
  import opened Delays
  import opened RtxList
  import opened RtxSched
  import opened RtxPlaces
  import opened RtxRest
  import opened RtxSpec
  import opened EventBits
  import opened RtxObjects
  import opened RtxFrames
  import opened RtxWaits
  import opened RtxMail
  import opened RtxKeeps
  import opened RtxFacts
  import RtxRobin
  import opened RtxIsr

  predicate Up(st: TaskState) {
    st == READY || st == RUNNING
  }

  /** Task x is as it was: its state, its time-out, and whether it is active. */
  ghost predicate SameWait(c: Core, c': Core, x: Ptr) {
    && (forall r :: Delay(x, r) in c'.d <==> Delay(x, r) in c.d)
    && c'.State(x) == c.State(x) && (c'.Live(x) <==> c.Live(x))
  }

  /** Or it can run, or it is gone. The delay list stays in order, and no control block comes or goes. */
  ghost predicate Onward(c: Core, c': Core, x: Ptr) {
    && (DelayOk(c.d) ==> DelayOk(c'.d)) && c'.g.tasks == c.g.tasks
    && (SameWait(c, c', x) || Up(c'.State(x)) || !c'.Live(x))
  }

  lemma OnwardTrans(a: Core, b: Core, c: Core, x: Ptr)
    requires Onward(a, b, x) && Onward(b, c, x)
    ensures Onward(a, c, x)
  {
    hide DelayOk;
  }

  lemma OnwardSame(c: Core, x: Ptr)
    ensures Onward(c, c, x) && Onward(c, Commit(c), x)
  {
    hide DelayOk;
  }

  // ----- the scheduler's steps

  lemma OnwardReady(c: Core, t: Ptr, x: Ptr)
    ensures Onward(c, ToReady(c, t), x) && Onward(c, ReadyAt(c, 0, t), x)
  {
    hide DelayOk, Ins, InsertPos;
  }

  lemma OnwardSwitch(c: Core, t: Ptr, x: Ptr)
    ensures Onward(c, Switch(c, t), x) && Onward(c, PopReady(c), x)
  {
    hide DelayOk;
  }

  lemma OnwardNext(c: Core, x: Ptr)
    ensures Onward(c, DispatchNext(c), x)
  {
    hide Onward, Switch, PopReady;
    OnwardSame(c, x);
    if c.Ready() != [] {
      OnwardSwitch(c, NULL, x);
      OnwardSwitch(PopReady(c), c.Ready()[0], x);
      OnwardTrans(c, PopReady(c), Switch(PopReady(c), c.Ready()[0]), x);
    }
  }

  lemma OnwardDispatch(c: Core, t: Ptr, x: Ptr)
    ensures Onward(c, Dispatch(c, t), x)
  {
    hide Onward, Switch, ReadyAt, ToReady;
    OnwardReady(c, t, x);
    OnwardReady(c, c.run, x);
    OnwardSwitch(ReadyAt(c, 0, c.run), t, x);
    OnwardTrans(c, ReadyAt(c, 0, c.run), Switch(ReadyAt(c, 0, c.run), t), x);
  }

  lemma OnwardPreempt(c: Core, x: Ptr)
    ensures Onward(c, PreemptCheck(c), x)
  {
    hide Onward, DispatchNext, ToReady;
    OnwardSame(c, x);
    OnwardReady(c, c.run, x);
    OnwardNext(ToReady(c, c.run), x);
    OnwardTrans(c, ToReady(c, c.run), DispatchNext(ToReady(c, c.run)), x);
  }

  /** A task taken off the delay list ends up able to run; the others are as they were. */
  lemma OnwardResumed(c: Core, c1: Core, t: Ptr, x: Ptr)
    requires c1 == c.(g := c1.g, d := DelayDrop(c.d, t)) && c1.g.tasks == c.g.tasks && DelayOk(c.d)
    ensures Onward(c, ToReady(c1, t), x) && Onward(c, Dispatch(c1, t), x)
  {
    hide DelayOk, DelayDrop, ToReady, Dispatch;
    DropKeepsOthers(c.d, t);
    MadeUp(c1, t);
    OnwardReady(c1, t, x);
    OnwardDispatch(c1, t, x);
  }

  lemma MadeUp(c: Core, t: Ptr)
    ensures Up(ToReady(c, t).State(t)) && Up(Dispatch(c, t).State(t))
  {
    hide Put, InsertPos;
  }

  lemma OnwardWake(c: Core, h: Ptr, x: Ptr)
    requires c.List(h) != [] && DelayOk(c.d)
    ensures Onward(c, ToReady(WakeFirst(c, h), c.List(h)[0]), x)
    ensures Onward(c, Dispatch(WakeFirst(c, h), c.List(h)[0]), x)
  {
    hide DelayOk, DelayDrop, ToReady, Dispatch, Onward;
    OnwardResumed(c, WakeFirst(c, h), c.List(h)[0], x);
  }

  lemma {:induction false} OnwardWakeAll(c: Core, h: Ptr, x: Ptr)
    requires DelayOk(c.d)
    ensures Onward(c, WakeAll(c, h), x)
    decreases |c.List(h)|
  {
    hide DelayOk, ToReady, WakeFirst, SameWait;
    if h == RDY || c.List(h) == [] {
      OnwardSame(c, x);
    } else {
      var c1 := ToReady(WakeFirst(c, h), c.List(h)[0]);
      OnwardWake(c, h, x);
      WokenShorter(c, h);
      OnwardWakeAll(c1, h, x);
      OnwardTrans(c, c1, WakeAll(c1, h), x);
    }
  }

  lemma OnwardReprio(c: Core, t: Ptr, p: nat, x: Ptr)
    ensures Onward(c, Reprio(c, t, p), x)
  {
    hide DelayOk, Ins, Del, InsertPos;
  }

  /** The entry of the running task joins the delay list, and it waits. */
  lemma Blocked(c: Core, n: nat, st: TaskState)
    requires DelayOk(c.d) && c.run !in Tasks(c.d) && 1 <= n <= NO_TIMEOUT && c.run !in c.Ready()
    ensures var c' := Block(c, n, st);
            && c'.State(c.run) == st && DelayOk(c'.d) && c'.active == c.active && c'.idle == c.idle
            && forall x, r :: Delay(x, r) in c'.d <==> Delay(x, r) in c.d || (x == c.run && r == n && n != 0xffff)
  {
    hide DelayOk, Tasks, DelayPut, Pop;
    if n < NO_TIMEOUT {
      PutKeepsOthers(c.d, c.run, n);
    }
  }

  lemma OnwardBlock(c: Core, n: nat, st: TaskState, x: Ptr)
    requires DelayOk(c.d) && c.run !in Tasks(c.d) && n <= NO_TIMEOUT && x != c.run
    ensures Onward(c, Block(c, n, st), x)
  {
    hide DelayOk, DelayPut, DispatchNext, Tasks;
    if n == 0 {
      OnwardSame(c, x);
    } else {
      if n < NO_TIMEOUT {
        PutKeepsOthers(c.d, c.run, n);
      }
      var c1 := c.(d := if n < NO_TIMEOUT then DelayPut(c.d, c.run, n) else c.d, state := c.state[c.run := st]);
      assert Onward(c, c1, x);
      OnwardNext(c1, x);
      OnwardTrans(c, c1, DispatchNext(c1), x);
    }
  }

  lemma OnwardBlockOn(k: KState, h: Ptr, n: nat, st: TaskState, x: Ptr)
    requires DelayOk(k.c.d) && k.c.run !in Tasks(k.c.d) && n <= NO_TIMEOUT && x != k.c.run
    ensures Onward(k.c, BlockOn(k, h, n, st).c, x)
  {
    hide DelayOk, Block, Tasks, Ins, InsertPos;
    var c1 := QueueRun(k.c, h);
    assert SameWait(k.c, c1, x);
    OnwardBlock(c1, n, st, x);
    OnwardTrans(k.c, c1, Block(c1, n, st), x);
  }

  // ----- the calls

  /** What the invariant says about the running task and the delay list. */
  lemma RestDelays(c: Core)
    requires AtRest(c)
    ensures DelayOk(c.d) && c.run !in Tasks(c.d) && c.run !in c.Ready() && c.State(c.run) == RUNNING && c.Live(c.run)
    ensures NULL !in c.active && c.run in c.g.tasks
  {
    assert Placed(c, c.run);
    RunInTasks(c);
  }

  lemma WakeOnward(k: KState, h: Ptr, r: Ret, x: Ptr)
    requires k.List(h) != [] && DelayOk(k.c.d)
    ensures Onward(k.c, Wake(k, h, r).c, x)
  {
    hide Dispatch, WakeFirst, Onward, DelayOk;
    OnwardWake(k.c, h, x);
  }

  lemma OnwardSend(k: KState, h: Ptr, x: Ptr)
    requires DelayOk(k.c.d)
    ensures Onward(k.c, SemSend(Return(k, OS_R_OK), h).c, x)
  {
    hide Wake, Return, Onward, DelayOk;
    OnwardSame(k.c, x);
    ReturnFrame(k, OS_R_OK);
    if k.List(h) != [] {
      WakeOnward(Return(k, OS_R_OK), h, Val(1), x);
    }
  }

  lemma OnwardSemWait(k: KState, h: Ptr, n: nat, x: Ptr)
    requires AtRest(k.c) && n <= NO_TIMEOUT && x != k.c.run
    ensures Onward(k.c, SemWait(k, h, n).c, x)
  {
    hide AtRest, BlockOn, Return, Onward, Tasks, DelayOk;
    RestDelays(k.c);
    OnwardSame(k.c, x);
    ReturnFrame(k, OS_R_TMO);
    if At(k.tokens, h, 0) != 0 {
      ReturnFrame(k.(tokens := k.tokens[h := At(k.tokens, h, 0) - 1]), OS_R_OK);
    }
    OnwardBlockOn(k, h, n, WAIT_SEM, x);
  }

  lemma OnwardDiscard(k: KState, h: Ptr, x: Ptr)
    requires DelayOk(k.c.d)
    ensures Onward(k.c, Discard(k, h).c, x)
  {
    hide WakeAll, PreemptCheck, RetAll, DelayOk;
    var c1 := WakeAll(k.c, h);
    OnwardWakeAll(k.c, h, x);
    OnwardPreempt(c1, x);
    OnwardTrans(k.c, c1, PreemptCheck(c1), x);
  }

  lemma OnwardEvt(k: KState, t: Ptr, flags: bv16, x: Ptr)
    requires DelayOk(k.c.d)
    ensures Onward(k.c, EvtSet(k, t, flags).c, x) && Onward(k.c, EvtPsh(k, t, flags).c, x)
  {
    hide Dispatch, ToReady, Signal, Completes, Onward, DelayOk;
    OnwardSame(k.c, x);
    SignalDelay(k, t, flags);
    if Completes(k, t, flags) {
      OnwardResumed(k.c, Signal(k, t, flags).c, t, x);
    }
  }

  lemma SignalDelay(k: KState, t: Ptr, flags: bv16)
    ensures var r := Signal(k, t, flags).c; r == if Completes(k, t, flags) then k.c.(d := DelayDrop(k.c.d, t)) else k.c
  {
    hide DelayDrop, Completes, Without, Merge, Common;
  }

  lemma OnwardEvtWait(k: KState, flags: bv16, n: nat, and: bool, x: Ptr)
    requires AtRest(k.c) && n <= NO_TIMEOUT && x != k.c.run
    ensures Onward(k.c, EvtWait(k, flags, n, and).c, x)
  {
    hide AtRest, Block, HasAll, HasAny, Without, Common, Onward, Tasks, DelayOk;
    RestDelays(k.c);
    OnwardSame(k.c, x);
    OnwardBlock(k.c, n, if and then WAIT_AND else WAIT_OR, x);
  }

  lemma OnwardMutWait(k: KState, m: Ptr, n: nat, x: Ptr)
    requires AtRest(k.c) && n <= NO_TIMEOUT && x != k.c.run
    ensures Onward(k.c, MutWait(k, m, n).c, x)
  {
    hide AtRest, BlockOn, Reprio, Onward, Tasks, DelayOk, U16;
    var mu, p := At(k.mut, m, FREE), k.c.Prio(k.c.run);
    RestDelays(k.c);
    OnwardSame(k.c, x);
    var c := if mu.prio < p then Reprio(k.c, mu.owner, p) else k.c;
    OnwardReprio(k.c, mu.owner, p, x);
    ReprioFields(k.c, mu.owner, p);
    OnwardBlockOn(k.(c := c), m, n, WAIT_MUT, x);
    OnwardTrans(k.c, c, BlockOn(k.(c := c), m, n, WAIT_MUT).c, x);
  }

  /** The running task's priority changes. */
  lemma OnwardLowered(k: KState, m: Ptr, x: Ptr)
    ensures Onward(k.c, Lowered(k, m), x) && Lowered(k, m).d == k.c.d
  {
    hide DelayOk;
  }

  lemma OnwardHandTo(c: Core, c1: Core, t: Ptr, x: Ptr)
    requires c1 == c.(g := c1.g, d := DelayDrop(c.d, t)) && c1.g.tasks == c.g.tasks && DelayOk(c.d)
    ensures Onward(c, HandTo(c1, t), x)
  {
    hide Dispatch, ToReady, DispatchNext, DelayDrop, DelayOk, Onward;
    OnwardResumed(c, c1, t, x);
    var c2 := ToReady(c1, c1.run);
    var c3 := ToReady(c2, t);
    ReadyDelays(c1, c1.run);
    DropKeepsOthers(c.d, t);
    SwappedReady(c, c1, t, x);
    OnwardNext(c3, x);
    OnwardTrans(c, c3, DispatchNext(c3), x);
  }

  lemma ReadyDelays(c: Core, t: Ptr)
    ensures ToReady(c, t).d == c.d
  {
  }

  lemma SwappedReady(c: Core, c1: Core, t: Ptr, x: Ptr)
    requires c1 == c.(g := c1.g, d := DelayDrop(c.d, t)) && c1.g.tasks == c.g.tasks && DelayOk(c.d)
    ensures Onward(c, ToReady(ToReady(c1, c1.run), t), x)
  {
    hide DelayDrop, DelayOk, Ins, InsertPos;
    DropKeepsOthers(c.d, t);
  }

  lemma OnwardMutRelease(k: KState, m: Ptr, x: Ptr)
    requires AtRest(k.c)
    ensures Onward(k.c, MutRelease(k, m).c, x)
  {
    hide AtRest, HandTo, WakeFirst, PreemptCheck, Onward, Lowered, DelayOk;
    var mu, c := At(k.mut, m, FREE), Lowered(k, m);
    RestDelays(k.c);
    OnwardSame(k.c, x);
    OnwardLowered(k, m, x);
    if mu.level == 1 && mu.owner == k.c.run {
      LastReleaseCore(k, m);
      OnwardPreempt(c, x);
      OnwardTrans(k.c, c, PreemptCheck(c), x);
      if c.List(m) != [] {
        WokenCore(c, m);
        OnwardHandTo(c, WakeFirst(c, m), c.List(m)[0], x);
        OnwardTrans(k.c, c, HandTo(WakeFirst(c, m), c.List(m)[0]), x);
      }
    } else {
      ReleaseCore(k, m);
    }
  }

  lemma WokenCore(c: Core, h: Ptr)
    requires c.List(h) != []
    ensures var c1 := WakeFirst(c, h); c1 == c.(g := c1.g, d := DelayDrop(c.d, c.List(h)[0])) && c1.g.tasks == c.g.tasks
  {
  }

  lemma ReleaseCore(k: KState, m: Ptr)
    requires At(k.mut, m, FREE).level != 1 || At(k.mut, m, FREE).owner != k.c.run
    ensures MutRelease(k, m).c == k.c
  {
  }

  lemma OnwardMutDelete(k: KState, m: Ptr, x: Ptr)
    requires DelayOk(k.c.d)
    ensures Onward(k.c, MutDelete(k, m).c, x)
  {
    hide Discard, Reprio, Onward, DelayOk;
    var mu := At(k.mut, m, FREE);
    OnwardSame(k.c, x);
    OnwardReprio(k.c, mu.owner, mu.prio, x);
    ReprioFields(k.c, mu.owner, mu.prio);
    var c := if mu.level != 0 then Reprio(k.c, mu.owner, mu.prio) else k.c;
    OnwardDiscard(k.(c := c), m, x);
    OnwardTrans(k.c, c, Discard(k.(c := c), m).c, x);
  }

  lemma OnwardMbxSend(k: KState, m: Ptr, y: int, n: nat, x: Ptr)
    requires AtRest(k.c) && n <= NO_TIMEOUT && x != k.c.run
    ensures Onward(k.c, MbxSend(k, m, y, n).c, x)
  {
    hide AtRest, Wake, BlockOn, Store, Return, Onward, Tasks, DelayOk;
    var b := At(k.mbx, m, NO_MAILBOX);
    RestDelays(k.c);
    if k.List(m) != [] && b.state == 1 {
      ReturnFrame(k, OS_R_OK);
      WakeOnward(Return(k, OS_R_OK), m, Message(y), x);
    } else if b.count == b.size {
      OnwardSame(k.c, x);
      ReturnFrame(k, OS_R_TMO);
      var b' := if k.List(m) == [] then b.(state := 2) else b;
      OnwardBlockOn(k.(mbx := k.mbx[m := b'], msg := k.msg[k.c.run := y]), m, n, WAIT_MBX, x);
    } else {
      OnwardSame(k.c, x);
      ReturnFrame(k.(mbx := k.mbx[m := Store(b, y).(count := b.count + 1)]), OS_R_OK);
    }
  }

  lemma OnwardMbxWait(k: KState, m: Ptr, n: nat, x: Ptr)
    requires AtRest(k.c) && n <= NO_TIMEOUT && x != k.c.run
    ensures Onward(k.c, MbxWait(k, m, n).c, x)
  {
    hide AtRest, Wake, BlockOn, Store, Oldest, Return, Onward, Tasks, DelayOk, Step;
    var b := At(k.mbx, m, NO_MAILBOX);
    RestDelays(k.c);
    if b.count > 0 {
      OnwardSame(k.c, x);
      if k.List(m) != [] && b.state == 2 {
        var k1 := k.(ret := k.ret[k.c.run := Message(Oldest(b))]);
        WakeOnward(k1.(mbx := k.mbx[m := Store(b.(last := Step(b.last, b.size)), At(k.msg, k.List(m)[0], 0))]), m, Val(0), x);
      }
    } else if n == 0 {
      OnwardSame(k.c, x);
      ReturnFrame(k, OS_R_TMO);
    } else {
      OnwardBlockOn(k.(mbx := k.mbx[m := if k.List(m) == [] then b.(state := 1) else b]), m, n, WAIT_MBX, x);
    }
  }

  lemma OnwardPass(c: Core, x: Ptr)
    ensures Onward(c, TskPass(c), x)
  {
    hide Onward, PopReady, ToReady, Switch;
    OnwardSame(c, x);
    if c.Ready() != [] {
      var c1 := PopReady(c);
      var c2 := ToReady(c1, c.run);
      OnwardSwitch(c, NULL, x);
      OnwardReady(c1, c.run, x);
      OnwardTrans(c, c1, c2, x);
      OnwardSwitch(c2, c.Ready()[0], x);
      OnwardTrans(c, c2, Switch(c2, c.Ready()[0]), x);
    }
  }

  lemma OnwardPrio(c: Core, t: Ptr, p: nat, x: Ptr)
    ensures Onward(c, TskPrio(c, t, p), x)
  {
    hide Onward, Reprio, PreemptCheck, Dispatch, PopReady;
    OnwardSame(c, x);
    var u := if t == NULL || (t in c.active && t == c.run) then c.run else t;
    var c1 := Reprio(c, u, p);
    OnwardReprio(c, u, p, x);
    OnwardPreempt(c1, x);
    OnwardTrans(c, c1, PreemptCheck(c1), x);
    if c1.Ready() != [] {
      var c2 := PopReady(c1);
      OnwardSwitch(c1, NULL, x);
      OnwardTrans(c, c1, c2, x);
      OnwardDispatch(c2, c1.Ready()[0], x);
      OnwardTrans(c, c2, Dispatch(c2, c1.Ready()[0]), x);
    }
  }

  lemma OnwardDelete(c: Core, t: Ptr, x: Ptr)
    requires AtRest(c) && x != c.run
    ensures Onward(c, TskDelete(c, t), x)
  {
    hide AtRest, DispatchNext, Unlink, DelayDrop, DelayOk;
    RestDelays(c);
    if t == NULL || t == c.run {
      var c1 := c.(active := c.active - {c.run}, state := c.state[c.run := INACTIVE]);
      assert Onward(c, c1, x);
      OnwardNext(c1, x);
      OnwardTrans(c, c1, DispatchNext(c1), x);
    } else if t in c.active {
      DropKeepsOthers(c.d, t);
      UnlinkTasks(c.g, t);
      IdleStays(c, t);
    } else {
      OnwardSame(c, x);
    }
  }

  lemma IdleStays(c: Core, t: Ptr)
    requires AtRest(c) && t in c.active
    ensures t != c.idle
  {
  }

  lemma OnwardCreate(c: Core, t: Ptr, p: nat, x: Ptr)
    ensures Onward(c, TskCreate(c, t, p), x)
  {
    hide Dispatch, DelayOk;
    var c1 := c.(g := Fresh(c.g, t), active := c.active + {t}, prio := c.prio[t := p], state := c.state[t := READY]);
    assert Onward(c, c1, x);
    OnwardDispatch(c1, t, x);
    OnwardTrans(c, c1, Dispatch(c1, t), x);
  }

  lemma {:induction false} OnwardPushAll(k: KState, qs: seq<Request>, x: Ptr)
    requires DelayOk(k.c.d)
    ensures Onward(k.c, PushAll(k, qs).c, x)
    decreases |qs|
  {
    hide Push, SameWait, DelayOk;
    if qs == [] {
      OnwardSame(k.c, x);
    } else {
      OnwardPush(k, qs[0], x);
      OnwardPushAll(Push(k, qs[0]), qs[1..], x);
      OnwardTrans(k.c, Push(k, qs[0]).c, PushAll(Push(k, qs[0]), qs[1..]).c, x);
    }
  }

  lemma OnwardPush(k: KState, q: Request, x: Ptr)
    requires DelayOk(k.c.d)
    ensures Onward(k.c, Push(k, q).c, x)
  {
    hide EvtPsh, Onward, ToReady, WakeFirst, DelayOk;
    match q {
      case SemReq(h) =>
        OnwardSame(k.c, x);
        if k.List(h) != [] {
          OnwardWake(k.c, h, x);
        }
      case EvtReq(t, flags) => OnwardEvt(k, t, flags, x);
    }
  }

  lemma OnwardPop(k: KState, qs: seq<Request>, x: Ptr)
    requires DelayOk(k.c.d)
    ensures Onward(k.c, PopReq(k, qs).c, x)
  {
    hide ReadyAt, PushAll, DispatchNext, SameWait, DelayOk;
    var c0 := ReadyAt(k.c, 0, k.c.run);
    OnwardReady(k.c, k.c.run, x);
    OnwardPushAll(k.(c := c0), qs, x);
    var k1 := PushAll(k.(c := c0), qs);
    OnwardTrans(k.c, c0, k1.c, x);
    OnwardNext(k1.c, x);
    OnwardTrans(k.c, k1.c, DispatchNext(k1.c), x);
  }

  lemma OnwardService(k: KState, a: Call, x: Ptr)
    requires AtRest(k.c) && Legal(k, a) && IsService(a) && x != k.c.run
    ensures Onward(k.c, Apply(k, a).c, x)
  {
    hide AtRest, Apply, Onward;
    if a.SendSem? || a.WaitSem? || a.DeleteSem? || a.SetEvt? || a.WaitEvt? || a.ClrEvt? {
      OnwardSemEvt(k, a, x);
    } else {
      OnwardMutMbx(k, a, x);
    }
  }

  lemma OnwardSemEvt(k: KState, a: Call, x: Ptr)
    requires AtRest(k.c) && Legal(k, a) && x != k.c.run
    requires a.SendSem? || a.WaitSem? || a.DeleteSem? || a.SetEvt? || a.WaitEvt? || a.ClrEvt?
    ensures Onward(k.c, Apply(k, a).c, x)
  {
    hide AtRest, SemSend, SemWait, Discard, EvtSet, EvtWait, EvtClr, Onward, DelayOk;
    RestDelays(k.c);
    match a {
      case SendSem(h) => OnwardSend(k, h, x);
      case WaitSem(h, n) => OnwardSemWait(k, h, n, x);
      case DeleteSem(h) => OnwardDiscard(k, h, x);
      case SetEvt(t, flags) => OnwardEvt(k, t, flags, x);
      case WaitEvt(flags, n, and) => OnwardEvtWait(k, flags, n, and, x);
      case ClrEvt(t, flags) =>
        OnwardSame(k.c, x);
        EvtClrFrame(k, t, flags);
    }
  }

  lemma OnwardMutMbx(k: KState, a: Call, x: Ptr)
    requires AtRest(k.c) && Legal(k, a) && x != k.c.run
    requires a.WaitMut? || a.ReleaseMut? || a.DeleteMut? || a.SendMbx? || a.WaitMbx?
    ensures Onward(k.c, Apply(k, a).c, x)
  {
    hide AtRest, MutWait, MutRelease, MutDelete, MbxSend, MbxWait, Onward, DelayOk;
    RestDelays(k.c);
    match a {
      case WaitMut(m, n) => OnwardMutWait(k, m, n, x);
      case ReleaseMut(m) => OnwardMutRelease(k, m, x);
      case DeleteMut(m) => OnwardMutDelete(k, m, x);
      case SendMbx(m, y, n) => OnwardMbxSend(k, m, y, n, x);
      case WaitMbx(m, n) => OnwardMbxWait(k, m, n, x);
    }
  }

  lemma OnwardTasks(k: KState, a: Call, x: Ptr)
    requires AtRest(k.c) && Legal(k, a) && !IsService(a) && !a.SysTick? && x != k.c.run
    ensures Onward(k.c, Apply(k, a).c, x)
  {
    hide AtRest, Block, TskPass, TskPrio, TskDelete, TskCreate, PopReq, DelayOk, SameWait, Tasks;
    RestDelays(k.c);
    OnwardSame(k.c, x);
    match a {
      case Pass => OnwardPass(k.c, x);
      case SetPrio(t, p) => OnwardPrio(k.c, t, p, x);
      case Delete(t) =>
        OnwardDelete(k.c, t, x);
        ApplyDelete(k, t);
      case Create(t, p) => OnwardCreate(k.c, t, p, x);
      case Wait(n) => OnwardBlock(k.c, n, WAIT_DLY, x);
      case PendSV(qs) => OnwardPop(k, qs, x);
      case _ => OnwardNew(k, a, x);
    }
  }

  lemma OnwardNew(k: KState, a: Call, x: Ptr)
    requires a.InitSem? || a.InitMut? || a.InitMbx?
    ensures Onward(k.c, Apply(k, a).c, x)
  {
    hide DelayOk;
  }

  /** A call other than a tick leaves a waiting task's state and time-out alone, or wakes or deletes it. */
  lemma CallOnward(k: KState, a: Call, x: Ptr)
    requires KInv(k) && Legal(k, a) && a != SysTick && x != k.c.run
    ensures Onward(k.c, Do(k, a).c, x)
  {
    hide KInv, AtRest, Legal, Apply, Onward;
    KInvObjects(k);
    if IsService(a) {
      OnwardService(k, a, x);
    } else {
      OnwardTasks(k, a, x);
    }
    OnwardSame(Apply(k, a).c, x);
    OnwardTrans(k.c, Apply(k, a).c, Commit(Apply(k, a).c), x);
  }

  // ----- the tick

  /** The delay list after a tick: every entry one less, and those with one tick left are gone. */
  lemma TickDelays(c: Core, x: Ptr, r: nat)
    requires Sched(c, {}, NULL)
    ensures Delay(x, r) in DecDly(c).d <==> r >= 1 && Delay(x, r + 1) in c.d
  {
    hide Sched, Expire;
    SchedHeads(c, {}, NULL);
    SchedDelays(c);
    ExpiredDelays(c);
    var n :| DueCut(c.d, Expire(c).d, n);
    AgedCut(c.d, Expire(c).d, n, x, r);
  }

  lemma SchedDelays(c: Core)
    requires Sched(c, {}, NULL)
    ensures DelayOk(c.d)
  {
  }

  lemma {:induction false} ExpiredDelays(c: Core)
    requires Sched(c, {}, NULL)
    ensures exists n :: DueCut(c.d, Expire(c).d, n)
    decreases |c.d|
  {
    hide Sched, TimeUp, DueCut;
    if c.d != [] && c.d[0].rem == 1 {
      TimeUpKeeps(c, {}, NULL);
      TimeUpFields(c);
      ExpiredDelays(TimeUp(c));
      var n :| DueCut(TimeUp(c).d, Expire(TimeUp(c)).d, n);
      DueCutNext(c.d, Expire(TimeUp(c)).d, n);
      ExpireNext(c);
    } else {
      SchedHeads(c, {}, NULL);
      ReadyHead(c);
      NoneDue(c, RDY);
      DueCutNone(c.d);
      assert Expire(c) == c;
    }
  }

  lemma ReadyHead(c: Core)
    requires Sched(c, {}, NULL)
    ensures RDY in c.g.lists
  {
  }

  lemma AgedCut(d: seq<Delay>, rest: seq<Delay>, n: nat, x: Ptr, r: nat)
    requires DueCut(d, rest, n) && DelayOk(d)
    ensures Delay(x, r) in Age(rest) <==> r >= 1 && Delay(x, r + 1) in d
  {
    var a := Age(rest);
    if Delay(x, r) in a {
      var i :| 0 <= i < |a| && a[i] == Delay(x, r);
      assert rest[i] == d[n + i] && d[n + i].rem > 1;
      assert d[n + i] == Delay(x, r + 1);
    }
    if r >= 1 && Delay(x, r + 1) in d {
      var i :| 0 <= i < |d| && d[i] == Delay(x, r + 1);
      assert i >= n;
      assert rest[i - n] == d[i] && a[i - n] == Delay(x, r);
    }
  }

  lemma ExpiredLive(c: Core, x: Ptr)
    ensures (Expire(c).Live(x) <==> c.Live(x)) && Expire(c).g.tasks == c.g.tasks
    decreases |c.d|
  {
    hide TimeUp;
    if c.d != [] && c.d[0].rem == 1 {
      TimeUpFields(c);
      TimeUpLive(c, x);
      ExpiredLive(TimeUp(c), x);
    }
  }

  lemma TimeUpLive(c: Core, x: Ptr)
    requires c.d != []
    ensures TimeUp(c).Live(x) <==> c.Live(x)
  {
    hide Put, InsertPos, Unlink;
  }

  /** Where rt_dec_dly starts. */
  lemma TickStart(k: KState, x: Ptr)
    requires AtRest(k.c) && x != k.c.run
    ensures var c1 := ChkRobin(k.(c := ReadyAt(k.c, 0, k.c.run))).c;
            && Sched(c1, {}, NULL) && c1.d == k.c.d && c1.State(x) == k.c.State(x) && (c1.Live(x) <==> k.c.Live(x))
            && c1.g.tasks == k.c.g.tasks && c1.Ready() != []
  {
    hide Sched, AtRest, NextRobin, ReadyAt, Rotate;
    var c0 := ReadyAt(k.c, 0, k.c.run);
    FrontKeeps(k.c);
    FrontTask(k.c, x);
    RtxRobin.RotateSched(c0);
    RotateTask(c0, x);
    RotateNonEmpty(c0);
    var c1 := ChkRobin(k.(c := c0)).c;
    assert c1 == c0 || c1 == Rotate(c0);
  }

  lemma FrontTask(c: Core, x: Ptr)
    requires x != c.run
    ensures var c0 := ReadyAt(c, 0, c.run);
            c0.d == c.d && c0.State(x) == c.State(x) && (c0.Live(x) <==> c.Live(x)) && c0.g.tasks == c.g.tasks && c0.Ready() != []
  {
  }

  lemma RotateTask(c: Core, x: Ptr)
    requires c.Ready() != []
    ensures var r := Rotate(c); r.d == c.d && r.State(x) == c.State(x) && (r.Live(x) <==> c.Live(x)) && r.g.tasks == c.g.tasks
  {
    hide Ins, InsertPos;
  }

  /** A tick makes the tasks with one tick left able to run, and lowers the others' time; nothing else of a waiting task changes. */
  lemma TickTask(k: KState, x: Ptr)
    requires KInv(k) && x in k.c.g.tasks && k.c.Live(x) && !Up(k.c.State(x))
    ensures var c' := Do(k, SysTick).c;
            && c'.Live(x) && c'.g.tasks == k.c.g.tasks
            && (if Delay(x, 1) in k.c.d then Up(c'.State(x)) else c'.State(x) == k.c.State(x))
            && (forall r: nat :: Delay(x, r) in c'.d <==> r >= 1 && Delay(x, r + 1) in k.c.d)
  {
    hide KInv, AtRest, ChkRobin, ReadyAt, Sched, Expire, DispatchNext;
    KInvObjects(k);
    RestDelays(k.c);
    var k1 := ChkRobin(k.(c := ReadyAt(k.c, 0, k.c.run)));
    TickStart(k, x);
    ExpireStates(k1.c, x);
    ExpiredLive(k1.c, x);
    forall r: nat
      ensures Delay(x, r) in DecDly(k1.c).d <==> r >= 1 && Delay(x, r + 1) in k.c.d
    {
      TickDelays(k1.c, x, r);
    }
    TickCore(k);
    NextTask(DecDly(k1.c), x);
    NotReady(k1.c, x);
  }

  lemma TickCore(k: KState)
    ensures Do(k, SysTick).c == Commit(DispatchNext(DecDly(ChkRobin(k.(c := ReadyAt(k.c, 0, k.c.run))).c)))
  {
    hide ChkRobin, ReadyAt, DecDly, DispatchNext;
  }

  /** A tick takes exactly the tasks with one tick left off the list of an object; the others keep their order. */
  lemma TickWaitLists(k: KState, h: Ptr)
    requires KInv(k) && h in k.c.g.lists && h != RDY
    ensures Do(k, SysTick).List(h) == Stay(k.c.d, k.List(h)) && h in Do(k, SysTick).c.g.lists
  {
    hide KInv, AtRest, Sched, ChkRobin, ReadyAt, Expire, DispatchNext, Stay;
    KInvObjects(k);
    var c1 := ChkRobin(k.(c := ReadyAt(k.c, 0, k.c.run))).c;
    TickLists(k, h);
    ExpireReleasesExactly(c1, h);
    ExpireKeepsKind(c1, h);
    TickCore(k);
    NextLists(DecDly(c1), h);
  }

  lemma NextLists(c: Core, h: Ptr)
    requires h != RDY
    ensures Commit(DispatchNext(c)).List(h) == c.List(h) && (h in c.g.lists ==> h in Commit(DispatchNext(c)).g.lists)
  {
  }

  lemma NextTask(c: Core, x: Ptr)
    ensures var r := Commit(DispatchNext(c));
            && r.d == c.d && r.g.tasks == c.g.tasks && (r.Live(x) <==> c.Live(x))
            && (r.State(x) == c.State(x) || (c.Ready() != [] && x == c.Ready()[0] && Up(r.State(x))))
  {
  }

  lemma NotReady(c: Core, x: Ptr)
    requires Sched(c, {}, NULL) && c.Ready() != [] && x in c.g.tasks
    ensures var r := DecDly(c); r.Ready() != [] && (x == r.Ready()[0] ==> Up(r.State(x)))
  {
    hide Sched, DecDly;
    DecDlyKeeps(c);
    OnlyReady(DecDly(c));
  }

  lemma OnlyReady(c: Core)
    requires Sched(c, {}, NULL) && c.Ready() != []
    ensures c.State(c.Ready()[0]) == READY
  {
    assert c.g.lists[RDY][0] in c.g.tasks;
    assert Placed(c, c.g.lists[RDY][0]);
  }

  // ----- calls that wait

  /** The call has to wait: what it wants is not there, and its time-out is not 0. */
  ghost predicate Waits(k: KState, a: Call) {
    match a
    case Wait(n) => n > 0
    case WaitSem(h, n) => At(k.tokens, h, 0) == 0 && n > 0
    case WaitMut(m, n) => At(k.mut, m, FREE).level > 0 && At(k.mut, m, FREE).owner != k.c.run && n > 0
    case WaitEvt(flags, n, and) =>
      n > 0 && if and then !AllSet(At(k.events, k.c.run, 0), flags) else !SomeSet(At(k.events, k.c.run, 0), flags)
    case SendMbx(m, _, n) =>
      && n > 0 && At(k.mbx, m, NO_MAILBOX).count == At(k.mbx, m, NO_MAILBOX).size
      && !(k.List(m) != [] && At(k.mbx, m, NO_MAILBOX).state == 1)
    case WaitMbx(m, n) => n > 0 && At(k.mbx, m, NO_MAILBOX).count == 0
    case _ => false
  }

  function Ticks(a: Call): (n: nat) {
    match a
    case Wait(n) => n
    case WaitSem(_, n) => n
    case WaitMut(_, n) => n
    case WaitEvt(_, n, _) => n
    case SendMbx(_, _, n) => n
    case WaitMbx(_, n) => n
    case _ => 0
  }

  /** The state that a caller waits in. */
  function WaitState(a: Call): (st: TaskState) {
    match a
    case WaitSem(_, _) => WAIT_SEM
    case WaitMut(_, _) => WAIT_MUT
    case WaitEvt(_, _, and) => if and then WAIT_AND else WAIT_OR
    case SendMbx(_, _, _) => WAIT_MBX
    case WaitMbx(_, _) => WAIT_MBX
    case _ => WAIT_DLY
  }

  /** The caller waits for n ticks in state st, and nobody else's time-out changes. */
  ghost predicate WaitsFor(c: Core, c': Core, n: nat, st: TaskState) {
    && c'.State(c.run) == st && c'.active == c.active && c'.idle == c.idle
    && forall x, r :: Delay(x, r) in c'.d <==> Delay(x, r) in c.d || (x == c.run && r == n && n != 0xffff)
  }

  lemma BlockedOn(k: KState, h: Ptr, n: nat, st: TaskState)
    requires DelayOk(k.c.d) && k.c.run !in Tasks(k.c.d) && 1 <= n <= NO_TIMEOUT && k.c.run !in k.c.Ready() && h != RDY
    ensures WaitsFor(k.c, BlockOn(k, h, n, st).c, n, st) && k.c.run in BlockOn(k, h, n, st).List(h)
  {
    hide DelayOk, Block, Tasks, Ins, InsertPos;
    var c1 := QueueRun(k.c, h);
    Blocked(c1, n, st);
    BlockedLists(k.c, h, n, st);
    InsMembers(k.List(h), InsertPos(k.c.prio, k.List(h), k.c.Prio(k.c.run)), k.c.run);
  }

  lemma SemWaits(k: KState, h: Ptr, n: nat)
    requires AtRest(k.c) && Waits(k, WaitSem(h, n)) && n <= NO_TIMEOUT && h != RDY
    ensures WaitsFor(k.c, SemWait(k, h, n).c, n, WAIT_SEM) && k.c.run in SemWait(k, h, n).List(h)
  {
    hide AtRest, BlockOn, Return, WaitsFor, DelayOk, Tasks;
    RestDelays(k.c);
    BlockedOn(k, h, n, WAIT_SEM);
  }

  lemma ReprioReadies(c: Core, t: Ptr, p: nat)
    requires AtRest(c) && t in c.active && t != c.run
    ensures c.run !in Reprio(c, t, p).Ready()
  {
    hide Reprio, AtRest;
    RestDelays(c);
    var c1 := Reprio(c, t, p);
    if c.run in c1.Ready() {
      var i :| 0 <= i < |c1.Ready()| && c1.Ready()[i] == c.run;
      ReprioMembers(c, t, p, i);
    }
  }

  lemma MutWaits(k: KState, m: Ptr, n: nat)
    requires AtRest(k.c) && Waits(k, WaitMut(m, n)) && n <= NO_TIMEOUT && m != RDY && At(k.mut, m, FREE).owner in k.c.active
    ensures WaitsFor(k.c, MutWait(k, m, n).c, n, WAIT_MUT) && k.c.run in MutWait(k, m, n).List(m)
  {
    hide AtRest, BlockOn, Reprio, DelayOk, Tasks;
    var mu, p := At(k.mut, m, FREE), k.c.Prio(k.c.run);
    RestDelays(k.c);
    var c := if mu.prio < p then Reprio(k.c, mu.owner, p) else k.c;
    ReprioFields(k.c, mu.owner, p);
    ReprioReadies(k.c, mu.owner, p);
    BlockedOn(k.(c := c), m, n, WAIT_MUT);
  }

  lemma EvtWaits(k: KState, flags: bv16, n: nat, and: bool)
    requires AtRest(k.c) && Waits(k, WaitEvt(flags, n, and)) && n <= NO_TIMEOUT
    ensures WaitsFor(k.c, EvtWait(k, flags, n, and).c, n, if and then WAIT_AND else WAIT_OR)
  {
    hide AtRest, Block, HasAll, HasAny, AllSet, SomeSet, Without, Common, DelayOk, Tasks;
    HasAllBits(At(k.events, k.c.run, 0), flags);
    HasAnyBits(At(k.events, k.c.run, 0), flags);
    RestDelays(k.c);
    Blocked(k.c, n, if and then WAIT_AND else WAIT_OR);
  }

  lemma SendWaits(k: KState, m: Ptr, y: int, n: nat)
    requires AtRest(k.c) && Waits(k, SendMbx(m, y, n)) && n <= NO_TIMEOUT && m != RDY
    ensures WaitsFor(k.c, MbxSend(k, m, y, n).c, n, WAIT_MBX) && k.c.run in MbxSend(k, m, y, n).List(m)
  {
    hide AtRest, BlockOn, Wake, Store, WaitsFor, DelayOk, Tasks;
    RestDelays(k.c);
    var b := At(k.mbx, m, NO_MAILBOX);
    BlockedOn(k.(mbx := k.mbx[m := if k.List(m) == [] then b.(state := 2) else b], msg := k.msg[k.c.run := y]), m, n, WAIT_MBX);
  }

  lemma ReceiveWaits(k: KState, m: Ptr, n: nat)
    requires AtRest(k.c) && Waits(k, WaitMbx(m, n)) && n <= NO_TIMEOUT && m != RDY
    ensures WaitsFor(k.c, MbxWait(k, m, n).c, n, WAIT_MBX) && k.c.run in MbxWait(k, m, n).List(m)
  {
    hide AtRest, BlockOn, Wake, Store, Oldest, WaitsFor, DelayOk, Tasks;
    RestDelays(k.c);
    var b := At(k.mbx, m, NO_MAILBOX);
    BlockedOn(k.(mbx := k.mbx[m := if k.List(m) == [] then b.(state := 1) else b]), m, n, WAIT_MBX);
  }

  lemma DelayWaits(k: KState, n: nat)
    requires AtRest(k.c) && 1 <= n <= NO_TIMEOUT
    ensures WaitsFor(k.c, Block(k.c, n, WAIT_DLY), n, WAIT_DLY)
  {
    hide AtRest, Block, DelayOk, Tasks;
    RestDelays(k.c);
    Blocked(k.c, n, WAIT_DLY);
  }

  lemma WaitApplies(k: KState, a: Call)
    ensures match a
            case Wait(n) => Apply(k, a).c == Block(k.c, n, WAIT_DLY)
            case WaitSem(h, n) => Apply(k, a) == SemWait(k, h, n)
            case WaitMut(m, n) => Apply(k, a) == MutWait(k, m, n)
            case WaitEvt(flags, n, and) => Apply(k, a) == EvtWait(k, flags, n, and)
            case SendMbx(m, y, n) => Apply(k, a) == MbxSend(k, m, y, n)
            case WaitMbx(m, n) => Apply(k, a) == MbxWait(k, m, n)
            case _ => true
  {
    hide Block, SemWait, MutWait, EvtWait, MbxSend, MbxWait, SemSend, EvtSet, EvtClr, Discard, MutRelease, MutDelete, PopReq,
         Tick, TskPass, TskPrio, TskDelete, TskCreate;
  }

  /** The object that a call waits for, or NULL. */
  function Awaited(a: Call): (h: Ptr) {
    if a.WaitSem? || a.WaitMut? || a.SendMbx? || a.WaitMbx? then a.obj else NULL
  }

  lemma WaitingCore(k: KState, a: Call)
    requires KInv(k) && Legal(k, a) && Waits(k, a)
    ensures WaitsFor(k.c, Apply(k, a).c, Ticks(a), WaitState(a))
    ensures Awaited(a) != NULL ==> k.c.run in Apply(k, a).List(Awaited(a))
  {
    hide KInv, AtRest, Apply, Block, SemWait, MutWait, EvtWait, MbxSend, MbxWait, AllSet, SomeSet, WaitsFor;
    KInvObjects(k);
    WaitApplies(k, a);
    match a {
      case Wait(n) => DelayWaits(k, n);
      case WaitSem(h, n) => SemWaits(k, h, n);
      case WaitMut(m, n) =>
        OwnerActive(k, m);
        MutWaits(k, m, n);
      case WaitEvt(flags, n, and) => EvtWaits(k, flags, n, and);
      case SendMbx(m, y, n) => SendWaits(k, m, y, n);
      case WaitMbx(m, n) => ReceiveWaits(k, m, n);
    }
  }

  /**
   * A call that has to wait leaves its caller waiting, on the list of its object, with exactly the time-out of the call;
   * 0xffff sets none. Every other entry of the delay list stays.
   */
  lemma CallWaits(k: KState, a: Call)
    requires KInv(k) && Legal(k, a) && Waits(k, a)
    ensures var k' := Do(k, a);
            && k'.c.State(k.c.run) == WaitState(a) && k'.c.Live(k.c.run)
            && (forall x, r :: Delay(x, r) in k'.c.d <==>
                  Delay(x, r) in k.c.d || (x == k.c.run && r == Ticks(a) && Ticks(a) != 0xffff))
            && (Awaited(a) != NULL ==> k.c.run in k'.List(Awaited(a)))
  {
    hide KInv, AtRest, Legal, Apply, Waits;
    WaitingCore(k, a);
    KInvObjects(k);
    RestDelays(k.c);
  }

  // ----- over runs

  function TicksIn(calls: seq<Call>): (n: nat) {
    if calls == [] then 0 else (if calls[0] == SysTick then 1 else 0) + TicksIn(calls[1..])
  }

  /** No call of the run but a tick ends the wait of t: after each it is still active and in the same state. */
  ghost predicate Unwoken(k: KState, calls: seq<Call>, t: Ptr)
    decreases |calls|
  {
    calls == [] || (
      && (calls[0] != SysTick ==> Do(k, calls[0]).c.State(t) == k.c.State(t) && Do(k, calls[0]).c.Live(t))
      && Unwoken(Do(k, calls[0]), calls[1..], t))
  }

  /** Task t waits, with r ticks left. */
  ghost predicate WaitingFor(k: KState, t: Ptr, r: nat) {
    t in k.c.g.tasks && k.c.Live(t) && !Up(k.c.State(t)) && (forall s: nat :: Delay(t, s) in k.c.d <==> s == r && r != 0)
  }

  /** A tick takes one of the r ticks that task t still waits; with the last one the wait ends. */
  lemma TickWaits(k: KState, t: Ptr, r: nat)
    requires KInv(k) && WaitingFor(k, t, r)
    ensures r != 1 ==> WaitingFor(Do(k, SysTick), t, if r == 0 then 0 else r - 1) && Do(k, SysTick).c.State(t) == k.c.State(t)
    ensures r == 1 ==> Up(Do(k, SysTick).c.State(t)) && forall s: nat :: Delay(t, s) !in Do(k, SysTick).c.d
  {
    hide KInv, Do;
    TickTask(k, t);
    assert Delay(t, 1) in k.c.d <==> r == 1;
    forall s: nat
      ensures Delay(t, s) in Do(k, SysTick).c.d <==> s >= 1 && s + 1 == r
    {
      assert Delay(t, s + 1) in k.c.d <==> s + 1 == r && r != 0;
    }
  }

  /**
   * A wait that nothing but the clock can end lasts exactly its ticks: after fewer it goes on, with the rest of them
   * left, and the last one makes the task able to run.
   */
  lemma {:induction false} WaitLasts(k: KState, calls: seq<Call>, t: Ptr, r: nat)
    requires KInv(k) && LegalRun(k, calls) && WaitingFor(k, t, r) && Unwoken(k, calls, t) && TicksIn(calls) < r
    ensures var k' := RtxKeeps.After(k, calls);
            && KInv(k') && WaitingFor(k', t, r - TicksIn(calls)) && k'.c.State(t) == k.c.State(t)
            && (TicksIn(calls) + 1 == r ==>
                  Up(Do(k', SysTick).c.State(t)) && forall s: nat :: Delay(t, s) !in Do(k', SysTick).c.d)
    decreases |calls|
  {
    hide KInv, Legal, Do;
    TickWaits(k, t, r);
    if calls != [] {
      var a, k1 := calls[0], Do(k, calls[0]);
      CallKeepsInvariant(k, a);
      if a == SysTick {
        WaitLasts(k1, calls[1..], t, r - 1);
      } else {
        WaiterNotRun(k, t);
        CallOnward(k, a, t);
        WaitLasts(k1, calls[1..], t, r);
      }
    }
  }

  /** A wait without a time-out goes on whatever the clock does. */
  lemma {:induction false} WaitForEver(k: KState, calls: seq<Call>, t: Ptr)
    requires KInv(k) && LegalRun(k, calls) && WaitingFor(k, t, 0) && Unwoken(k, calls, t)
    ensures var k' := RtxKeeps.After(k, calls); KInv(k') && WaitingFor(k', t, 0) && k'.c.State(t) == k.c.State(t)
    decreases |calls|
  {
    hide KInv, Legal, Do;
    if calls != [] {
      var a, k1 := calls[0], Do(k, calls[0]);
      CallKeepsInvariant(k, a);
      if a == SysTick {
        TickWaits(k, t, 0);
      } else {
        WaiterNotRun(k, t);
        CallOnward(k, a, t);
      }
      WaitForEver(k1, calls[1..], t);
    }
  }

  lemma WaiterNotRun(k: KState, t: Ptr)
    requires KInv(k) && !Up(k.c.State(t))
    ensures t != k.c.run
  {
    hide AtRest;
    KInvObjects(k);
    RestDelays(k.c);
  }

  /** A call that waits starts such a wait, of as many ticks as it was given; 0 here stands for no time-out. */
  lemma CallStartsWait(k: KState, a: Call)
    requires KInv(k) && Legal(k, a) && Waits(k, a)
    ensures KInv(Do(k, a)) && WaitingFor(Do(k, a), k.c.run, if Ticks(a) == 0xffff then 0 else Ticks(a))
  {
    hide KInv, AtRest, Legal, Do, Tasks, AllSet, SomeSet;
    CallWaits(k, a);
    CallKeepsInvariant(k, a);
    CallOnward(k, a, k.c.run + 1);
    KInvObjects(k);
    KInvObjects(Do(k, a));
    RestDelays(k.c);
    NoEntry(k.c.d, k.c.run);
    TicksPositive(k, a);
  }

  lemma TicksPositive(k: KState, a: Call)
    requires Waits(k, a)
    ensures Ticks(a) > 0
  {
    hide AllSet, SomeSet;
  }

  lemma NoEntry(d: seq<Delay>, t: Ptr)
    requires t !in Tasks(d)
    ensures forall r :: Delay(t, r) !in d
  {
    forall r
      ensures Delay(t, r) !in d
    {
      EntryListed(d, t, r);
    }
  }

  lemma EntryListed(d: seq<Delay>, t: Ptr, r: nat)
    ensures Delay(t, r) in d ==> t in Tasks(d)
  {
    if Delay(t, r) in d {
      TaskListed(d, Delay(t, r));
    }
  }
}
