/** What each kernel call leaves alone. */
module RtxFrames {
  import opened Links
  import opened TaskLists
  import opened RtxOrder
  import opened Delays
  import opened RtxList
  import opened RtxSched
  import opened RtxRest
  import opened RtxSpec

  lemma ReturnFrame(k: KState, code: int)
    ensures var r := Return(k, code); r == k.(ret := r.ret)
  {
  }

  lemma WakeFrame(k: KState, h: Ptr, x: Ret)
    requires k.List(h) != []
    ensures var r := Wake(k, h, x); r == k.(c := r.c, ret := r.ret)
  {
    hide Dispatch, WakeFirst;
  }

  lemma BlockOnFrame(k: KState, h: Ptr, n: nat, st: TaskState)
    ensures var r := BlockOn(k, h, n, st); r == k.(c := r.c, ret := r.ret)
  {
    hide Block, QueueRun;
  }

  lemma HandOverFrame(k: KState, m: Ptr)
    requires k.List(m) != []
    ensures var r := HandOver(k, m); r == k.(c := r.c, ret := r.ret, mut := r.mut)
  {
    hide HandTo, WakeFirst;
  }

  lemma SemSendFrame(k: KState, h: Ptr)
    ensures var r := SemSend(k, h); r == k.(c := r.c, ret := r.ret, tokens := r.tokens)
  {
    hide Dispatch, WakeFirst;
  }

  lemma SemWaitFrame(k: KState, h: Ptr, n: nat)
    ensures var r := SemWait(k, h, n); r == k.(c := r.c, ret := r.ret, tokens := r.tokens)
  {
    hide Return, BlockOn;
    if At(k.tokens, h, 0) != 0 {
      ReturnFrame(k.(tokens := k.tokens[h := At(k.tokens, h, 0) - 1]), OS_R_OK);
    } else if n == 0 {
      ReturnFrame(k, OS_R_TMO);
    } else {
      BlockOnFrame(k, h, n, WAIT_SEM);
    }
  }

  lemma DiscardFrame(k: KState, h: Ptr)
    ensures var r := Discard(k, h); r == k.(c := r.c, ret := r.ret)
  {
    hide PreemptCheck, WakeAll, RetAll;
  }

  lemma SignalFrame(k: KState, t: Ptr, flags: bv16)
    ensures var r := Signal(k, t, flags); r == k.(c := r.c, ret := r.ret, events := r.events, waits := r.waits)
  {
    hide Completes, Without, Merge, Common, DelayDrop;
  }

  lemma EvtSetFrame(k: KState, t: Ptr, flags: bv16)
    ensures var r := EvtSet(k, t, flags); r == k.(c := r.c, ret := r.ret, events := r.events, waits := r.waits)
  {
    hide Completes, Signal, Dispatch;
    SignalFrame(k, t, flags);
  }

  lemma EvtPshFrame(k: KState, t: Ptr, flags: bv16)
    ensures var r := EvtPsh(k, t, flags); r == k.(c := r.c, ret := r.ret, events := r.events, waits := r.waits)
  {
    hide Completes, Signal, ToReady;
    SignalFrame(k, t, flags);
  }

  lemma EvtWaitFrame(k: KState, flags: bv16, n: nat, and: bool)
    ensures var r := EvtWait(k, flags, n, and); r == k.(c := r.c, ret := r.ret, events := r.events, waits := r.waits)
  {
    hide HasAll, HasAny, Without, Common, Block;
  }

  lemma MutWaitFrame(k: KState, m: Ptr, n: nat)
    ensures var r := MutWait(k, m, n); r == k.(c := r.c, ret := r.ret, mut := r.mut)
  {
    hide Return, BlockOn, Reprio, U16;
    var run, mu := k.c.run, At(k.mut, m, FREE);
    if mu.level == 0 {
      ReturnFrame(k.(mut := k.mut[m := Mutex(k.c.Prio(run), 1, run)]), OS_R_OK);
    } else if mu.owner == run {
      ReturnFrame(k.(mut := k.mut[m := mu.(level := U16(mu.level + 1))]), OS_R_OK);
    } else if n == 0 {
      ReturnFrame(k, OS_R_TMO);
    } else {
      BlockOnFrame(k.(c := if mu.prio < k.c.Prio(run) then Reprio(k.c, mu.owner, k.c.Prio(run)) else k.c), m, n, WAIT_MUT);
    }
  }

  lemma MutReleaseFrame(k: KState, m: Ptr)
    ensures var r := MutRelease(k, m); r == k.(c := r.c, ret := r.ret, mut := r.mut)
  {
    hide Return, PreemptCheck, HandOver;
    var run, mu := k.c.run, At(k.mut, m, FREE);
    if mu.level == 0 || mu.owner != run {
      ReturnFrame(k, OS_R_NOK);
    } else {
      var k0 := k.(mut := k.mut[m := mu.(level := mu.level - 1)]);
      ReturnFrame(k0, OS_R_OK);
      var k1 := Return(k0, OS_R_OK);
      var k2 := k1.(c := k1.c.(prio := k1.c.prio[run := mu.prio]));
      if mu.level == 1 && k2.List(m) != [] {
        HandOverFrame(k2, m);
      }
    }
  }

  lemma MutDeleteFrame(k: KState, m: Ptr)
    ensures var r := MutDelete(k, m); r == k.(c := r.c, ret := r.ret)
  {
    hide Reprio, Discard;
    var mu := At(k.mut, m, FREE);
    DiscardFrame(k.(c := if mu.level != 0 then Reprio(k.c, mu.owner, mu.prio) else k.c), m);
  }

  lemma MbxSendFrame(k: KState, m: Ptr, x: int, n: nat)
    ensures var r := MbxSend(k, m, x, n); r == k.(c := r.c, ret := r.ret, mbx := r.mbx, msg := r.msg)
  {
    hide Return, Wake, BlockOn, Store;
    var run, b := k.c.run, At(k.mbx, m, NO_MAILBOX);
    if k.List(m) != [] && b.state == 1 {
      ReturnFrame(k, OS_R_OK);
      WakeFrame(Return(k, OS_R_OK), m, Message(x));
    } else if b.count == b.size {
      ReturnFrame(k, OS_R_TMO);
      BlockOnFrame(k.(mbx := k.mbx[m := if k.List(m) == [] then b.(state := 2) else b], msg := k.msg[run := x]), m, n, WAIT_MBX);
    } else {
      ReturnFrame(k.(mbx := k.mbx[m := Store(b, x).(count := b.count + 1)]), OS_R_OK);
    }
  }

  lemma MbxWaitFrame(k: KState, m: Ptr, n: nat)
    ensures var r := MbxWait(k, m, n); r == k.(c := r.c, ret := r.ret, mbx := r.mbx)
  {
    hide Return, Wake, BlockOn, Store, Oldest, Step;
    var run, b := k.c.run, At(k.mbx, m, NO_MAILBOX);
    if b.count > 0 {
      var b1, k1 := b.(last := Step(b.last, b.size)), k.(ret := k.ret[run := Message(Oldest(b))]);
      if k.List(m) != [] && b.state == 2 {
        WakeFrame(k1.(mbx := k.mbx[m := Store(b1, At(k.msg, k.List(m)[0], 0))]), m, Val(0));
      }
    } else if n == 0 {
      ReturnFrame(k, OS_R_TMO);
    } else {
      BlockOnFrame(k.(mbx := k.mbx[m := if k.List(m) == [] then b.(state := 1) else b]), m, n, WAIT_MBX);
    }
  }

  lemma PushFrame(k: KState, q: Request)
    ensures var r := Push(k, q); r == k.(c := r.c, ret := r.ret, tokens := r.tokens, events := r.events, waits := r.waits)
  {
    hide EvtPsh, ToReady, WakeFirst;
    match q {
      case SemReq(_) =>
      case EvtReq(t, flags) => EvtPshFrame(k, t, flags);
    }
  }

  lemma {:induction false} PushAllFrame(k: KState, qs: seq<Request>)
    ensures var r := PushAll(k, qs);
            r == k.(c := r.c, ret := r.ret, tokens := r.tokens, events := r.events, waits := r.waits)
    decreases |qs|
  {
    hide Push;
    if qs != [] {
      PushFrame(k, qs[0]);
      PushAllFrame(Push(k, qs[0]), qs[1..]);
    }
  }

  predicate SemCall(a: Call) {
    a.SendSem? || a.WaitSem? || a.InitSem? || a.PendSV?
  }

  predicate MutCall(a: Call) {
    a.WaitMut? || a.ReleaseMut? || a.InitMut?
  }

  predicate MbxCall(a: Call) {
    a.SendMbx? || a.WaitMbx? || a.InitMbx?
  }

  /** k' has the same objects and clock as k apart from those that call a is for. */
  ghost predicate Framed(k: KState, k': KState, a: Call) {
    && (!SemCall(a) ==> k'.tokens == k.tokens)
    && (!MutCall(a) ==> k'.mut == k.mut)
    && (!MbxCall(a) ==> k'.mbx == k.mbx && k'.msg == k.msg)
    && (!a.SysTick? ==> k'.robin == k.robin && k'.time == k.time)
  }

  lemma SwitchFramed(k: KState, a: Call)
    requires Framed(k, Apply(k, a), a)
    ensures Framed(k, Do(k, a), a)
  {
    hide Apply, Commit;
  }

  lemma SemEvtFramed(k: KState, a: Call)
    requires a.SendSem? || a.WaitSem? || a.DeleteSem? || a.SetEvt? || a.WaitEvt? || a.ClrEvt?
    ensures Framed(k, Apply(k, a), a)
  {
    hide SemSend, SemWait, Discard, EvtSet, EvtWait, EvtClr;
    match a {
      case SendSem(h) => SemSendFrame(Return(k, OS_R_OK), h);
      case WaitSem(h, n) => SemWaitFrame(k, h, n);
      case DeleteSem(h) => DiscardFrame(k, h);
      case SetEvt(t, flags) => EvtSetFrame(k, t, flags);
      case WaitEvt(flags, n, and) => EvtWaitFrame(k, flags, n, and);
      case ClrEvt(t, flags) => EvtClrFrame(k, t, flags);
    }
  }

  lemma MutMbxFramed(k: KState, a: Call)
    requires a.WaitMut? || a.ReleaseMut? || a.DeleteMut? || a.SendMbx? || a.WaitMbx?
    ensures Framed(k, Apply(k, a), a)
  {
    hide MutWait, MutRelease, MutDelete, MbxSend, MbxWait;
    match a {
      case WaitMut(m, n) => MutWaitFrame(k, m, n);
      case ReleaseMut(m) => MutReleaseFrame(k, m);
      case DeleteMut(m) => MutDeleteFrame(k, m);
      case SendMbx(m, x, n) => MbxSendFrame(k, m, x, n);
      case WaitMbx(m, n) => MbxWaitFrame(k, m, n);
    }
  }

  lemma TimeFramed(k: KState, a: Call)
    requires a.PendSV? || a.SysTick?
    ensures Framed(k, Apply(k, a), a)
  {
    hide ReadyAt, DispatchNext, PushAll, DecDly, ChkRobin;
    match a {
      case PendSV(qs) => PushAllFrame(k.(c := ReadyAt(k.c, 0, k.c.run)), qs);
      case SysTick => ChkRobinFrame(k.(c := ReadyAt(k.c, 0, k.c.run)));
    }
  }

  lemma TaskFramed(k: KState, a: Call)
    requires a.Pass? || a.SetPrio? || a.Delete? || a.Create? || a.Wait? || a.InitSem? || a.InitMut? || a.InitMbx?
    ensures Framed(k, Apply(k, a), a)
  {
    hide Block, TskPass, TskPrio, TskDelete, TskCreate;
  }

  /** Only the calls of an object type touch the objects of that type, and only a tick touches the clock. */
  lemma CallFrame(k: KState, a: Call)
    ensures !SemCall(a) ==> Do(k, a).tokens == k.tokens
    ensures !MutCall(a) ==> Do(k, a).mut == k.mut
    ensures !MbxCall(a) ==> Do(k, a).mbx == k.mbx && Do(k, a).msg == k.msg
    ensures !a.SysTick? ==> Do(k, a).robin == k.robin && Do(k, a).time == k.time
  {
    hide Apply, Do;
    if a.SendSem? || a.WaitSem? || a.DeleteSem? || a.SetEvt? || a.WaitEvt? || a.ClrEvt? {
      SemEvtFramed(k, a);
    } else if a.WaitMut? || a.ReleaseMut? || a.DeleteMut? || a.SendMbx? || a.WaitMbx? {
      MutMbxFramed(k, a);
    } else if a.PendSV? || a.SysTick? {
      TimeFramed(k, a);
    } else {
      TaskFramed(k, a);
    }
    SwitchFramed(k, a);
  }

  lemma EvtClrFrame(k: KState, t: Ptr, flags: bv16)
    ensures var r := EvtClr(k, t, flags); r == k.(events := r.events)
  {
    hide Without;
  }

  lemma ChkRobinFrame(k: KState)
    ensures var r := ChkRobin(k); r == k.(c := r.c, robin := r.robin)
  {
    hide NextRobin, Rotate;
  }
}
