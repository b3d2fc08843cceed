/** The service calls working in place: rt_Semaphore.c, rt_Event.c, rt_Mutex.c, rt_Mailbox.c, rt_Robin.c, rt_System.c. */
module RtxKernel {
  import opened Links
  import opened TaskLists
  import opened RtxOrder
  import opened Delays
  import RtxList
  import opened RtxSched
  import opened RtxPlaces
  import opened RtxRest
  import opened RtxSpec
  import opened RtxObjects
  import opened RtxKeeps
  import opened RtxFacts
  import opened RtxScheduler

  /** The scheduler and the fields of control blocks that only the service calls use. */
  class Kernel {
    const s: Scheduler
    var events: map<Ptr, bv16>
    var waits: map<Ptr, bv16>
    var msg: map<Ptr, int>
    var ret: map<Ptr, Ret>
    var tokens: map<Ptr, nat>
    var mut: map<Ptr, Mutex>
    var mbx: map<Ptr, Mailbox>
    var robin: Robin
    var time: nat

    /** Start-up with the given task control blocks and objects; tout is the length of a round-robin slice. */
    constructor (idle: Ptr, tasks: set<Ptr>, objects: set<Ptr>, tout: nat)
      requires idle in tasks && tasks !! objects && {NULL, RDY, DLY} !! tasks + objects
      ensures fresh(s) && Rep() && KInv(Abs()) && s.idle == idle && s.g.tasks == tasks && robin.tout == tout
      ensures s.g.lists.Keys == objects + {RDY}
    {
      hide Scheduler.Rep, Scheduler.C, AtRest, Boot;
      s := new Scheduler(idle, tasks, objects);
      events, waits := map t | t in tasks :: 0, map t | t in tasks :: 0;
      msg, ret := map t | t in tasks :: 0, map t | t in tasks :: Code(OS_R_OK);
      tokens, mut, mbx := map[], map[], map[];
      robin, time := Robin(NULL, 0, tout), 0;
      BootRests(idle, tasks, objects);
      BootFields(idle, tasks, objects);
    }

    ghost predicate Rep()
      reads s
    {
      s.Rep()
    }

    /** The abstract kernel state. */
    ghost function Abs(): (k: KState)
      reads this, s
      ensures k.c == s.C() && k.events == events && k.waits == waits && k.msg == msg && k.ret == ret
      ensures k.tokens == tokens && k.mut == mut && k.mbx == mbx && k.robin == robin && k.time == time
    {
      KState(s.C(), events, waits, msg, ret, tokens, mut, mbx, robin, time)
    }

    /** The result of a service call, left in the caller's stack frame. */
    method Return(code: int)
      requires Rep()
      modifies this
      ensures Rep() && Abs() == RtxSpec.Return(old(Abs()), code)
    {
      hide Scheduler.Rep, Scheduler.C;
      ret := ret[s.run := Code(code)];
    }

    /** The first waiter of h, with r as the result of its call, is dispatched. */
    method Wake(h: Ptr, r: Ret)
      requires Rep() && AtRest(s.C()) && h in s.g.lists && h != RDY && s.g.lists[h] != []
      modifies this, s
      ensures Rep() && Abs() == RtxSpec.Wake(old(Abs()), h, r) && s.run == old(s.run)
      ensures old(s.g.lists[h][0] != s.run)
    {
      hide Scheduler.Rep, Scheduler.C, AtRest, RtxSched.Dispatch, WakeFirst;
      var t := s.WakeDispatch(h);
      ret := ret[t := r];
    }

    /** The running task queues on h and blocks; it returns with a time-out unless it is woken. */
    method BlockOn(h: Ptr, n: nat, st: TaskState)
      requires Rep() && AtRest(s.C()) && s.run != s.idle && 1 <= n <= NO_TIMEOUT
      requires h in s.g.lists && h != RDY && RtxList.IsWaitKind(At(s.kind, h, RtxList.TCB))
      modifies this, s
      ensures Rep() && Abs() == RtxSpec.BlockOn(old(Abs()), h, n, st)
    {
      hide Scheduler.Rep, Scheduler.C, AtRest, RtxSched.Block, QueueRun;
      s.WaitFor(h, n, st);
      ret := ret[s.run := Code(OS_R_TMO)];
    }

    // ----- rt_Semaphore.c

    method StoreToken(h: Ptr)
      requires Rep() && h in tokens
      modifies this
      ensures Rep() && Abs() == RtxSpec.StoreToken(old(Abs()), h)
    {
      hide Scheduler.Rep, Scheduler.C;
      tokens := tokens[h := U16(tokens[h] + 1)];
    }

    method TakeToken(h: Ptr)
      requires Rep() && h in tokens && tokens[h] != 0
      modifies this
      ensures Rep() && Abs() == old(Abs()).(tokens := old(tokens)[h := old(tokens)[h] - 1])
    {
      hide Scheduler.Rep, Scheduler.C;
      tokens := tokens[h := tokens[h] - 1];
    }

    /** rt_sem_send */
    method SemSend(h: Ptr)
      requires Rep() && KInv(Abs()) && IsObject(Abs(), h, RtxList.SCB)
      modifies this, s
      ensures Rep() && Abs() == RtxSpec.SemSend(RtxSpec.Return(old(Abs()), OS_R_OK), h)
    {
      hide Rep, Scheduler.C, Abs, AtRest, Objects, RtxSpec.Wake, RtxSpec.SemSend, RtxSpec.StoreToken, RtxSpec.Return;
      SemaphoreAt(Abs(), h);
      SendCases(Abs(), h);
      var first := Head(h);
      if first != NULL {
        Wake(h, Val(1));
      } else {
        StoreToken(h);
      }
      Return(OS_R_OK);
    }

    /** rt_sem_wait */
    method SemWait(h: Ptr, n: nat)
      requires Rep() && KInv(Abs()) && IsObject(Abs(), h, RtxList.SCB) && n <= NO_TIMEOUT && s.run != s.idle
      modifies this, s
      ensures Rep() && Abs() == RtxSpec.SemWait(old(Abs()), h, n)
    {
      hide Rep, Scheduler.C, Abs, AtRest, Objects, RtxSpec.BlockOn, RtxSpec.Return;
      SemaphoreAt(Abs(), h);
      if tokens[h] != 0 {
        TakeToken(h);
        Return(OS_R_OK);
      } else if n == 0 {
        Return(OS_R_TMO);
      } else {
        BlockOn(h, n, WAIT_SEM);
      }
    }

    /** rt_sem_psh */
    method SemPsh(h: Ptr)
      requires Rep() && Sched(s.C(), {}, NULL) && Objects(Abs()) && IsObject(Abs(), h, RtxList.SCB)
      modifies this, s
      ensures Rep() && Abs() == RtxSpec.SemPsh(old(Abs()), h)
    {
      hide Rep, Scheduler.C, Abs, Sched, Objects, RtxSpec.WakeReady, RtxSpec.StoreToken;
      SemaphoreAt(Abs(), h);
      var first := Head(h);
      if first != NULL {
        WakeReady(h, Val(1));
      } else {
        StoreToken(h);
      }
    }

    /** rt_sem_delete, and what rt_mut_delete shares with it. */
    method Discard(h: Ptr)
      requires Rep() && Sched(s.C(), {}, s.run) && s.run != NULL && h in s.g.lists && h != RDY
      modifies this, s
      ensures Rep() && Abs() == RtxSpec.Discard(old(Abs()), h)
    {
      hide Scheduler.Rep, Scheduler.C, Sched, RtxSched.WakeAll, RtxSched.PreemptCheck, RetAll;
      ret := s.ReleaseAll(h, Val(0), ret);
      ret := ret[s.run := Code(OS_R_OK)];
      s.Retype(h, RtxList.TCB);
    }

    // ----- rt_Event.c

    method ClearOwn(flags: bv16)
      requires Rep() && s.run in events
      modifies this
      ensures Rep() && Abs() == old(Abs()).(events := old(events)[s.run := Without(old(events)[s.run], flags)])
    {
      hide Scheduler.Rep, Scheduler.C, Without;
      events := events[s.run := Without(events[s.run], flags)];
    }

    method SetOwnWaits(w: bv16)
      requires Rep()
      modifies this
      ensures Rep() && Abs() == old(Abs()).(waits := old(waits)[s.run := w])
    {
      hide Scheduler.Rep, Scheduler.C;
      waits := waits[s.run := w];
    }

    /** rt_evt_wait */
    method EvtWait(flags: bv16, n: nat, and: bool)
      requires Rep() && KInv(Abs()) && n <= NO_TIMEOUT && s.run != s.idle
      modifies this, s
      ensures Rep() && Abs() == RtxSpec.EvtWait(old(Abs()), flags, n, and)
    {
      hide Rep, Scheduler.C, Abs, AtRest, Objects, RtxSpec.Return, HasAll, HasAny, Without, Common, RtxSched.Block,
           RtxSpec.EvtWait;
      RunFlags(Abs());
      EvtWaitCases(Abs(), flags, n, and);
      var e := events[s.run];
      if and {
        if HasAll(e, flags) {
          ClearOwn(flags);
          Return(OS_R_EVT);
          return;
        }
      } else {
        if HasAny(e, flags) {
          SetOwnWaits(Common(e, flags));
          ClearOwn(flags);
          Return(OS_R_EVT);
          return;
        }
      }
      SleepForFlags(flags, n, if and then WAIT_AND else WAIT_OR);
    }

    /** The end of rt_evt_wait: the flags are not there. */
    method SleepForFlags(flags: bv16, n: nat, st: TaskState)
      requires Rep() && AtRest(s.C()) && n <= NO_TIMEOUT && s.run != s.idle
      modifies this, s
      ensures Rep()
      ensures Abs() == RtxSpec.Return(old(Abs()), OS_R_TMO).(waits := old(waits)[old(s.run) := flags],
                                                             c := RtxSched.Block(old(s.C()), n, st))
    {
      hide Scheduler.Rep, AtRest, RtxSched.Block, Queueable;
      RestFacts(s.C());
      waits := waits[s.run := flags];
      s.Block(n, st);
      ret := ret[s.run := Code(OS_R_TMO)];
    }

    /** What rt_evt_set and rt_evt_psh share: the new flags, and the end of the wait they complete. */
    method Signal(t: Ptr, flags: bv16) returns (woken: bool)
      requires Rep() && t in s.g.tasks && t in events && t in waits && t in s.state
      modifies this, s
      ensures Rep() && Abs() == RtxSpec.Signal(old(Abs()), t, flags)
      ensures woken == Completes(old(Abs()), t, flags) && s.run == old(s.run)
    {
      hide Scheduler.Rep, Scheduler.C, HasAll, HasAny, Without, Merge, Common, DelayDrop, RtxSpec.Signal, Completes;
      SignalParts(Abs(), t, flags);
      var e, w, st := Merge(events[t], flags), waits[t], s.state[t];
      Overwrite(events, t, e, Without(e, w));
      events := events[t := e];
      woken := (st == WAIT_AND && HasAll(e, w)) || (st == WAIT_OR && HasAny(e, w));
      if woken {
        EndWait(t, e, w, st == WAIT_OR);
      }
    }

    /** The label wkup of rt_evt_set. */
    method EndWait(t: Ptr, e: bv16, w: bv16, or: bool)
      requires Rep() && t in s.g.tasks && t in waits
      modifies this, s
      ensures Rep() && s.run == old(s.run)
      ensures var w' := if or then Common(w, e) else w;
              Abs() == old(Abs()).(events := old(events)[t := Without(e, w)], ret := old(ret)[t := Signals(w')],
                                   waits := if or then old(waits)[t := w'] else old(waits),
                                   c := old(s.C()).(d := DelayDrop(old(s.d), t)))
    {
      hide Scheduler.Rep, Scheduler.C, Without, Common, DelayDrop;
      var w' := w;
      if or {
        w' := Common(w, e);
        waits := waits[t := w'];
      }
      events := events[t := Without(e, w)];
      s.Undelay(t);
      ret := ret[t := Signals(w')];
    }

    /** rt_evt_set */
    method EvtSet(t: Ptr, flags: bv16)
      requires Rep() && KInv(Abs())
      modifies this, s
      ensures Rep() && Abs() == RtxSpec.EvtSet(old(Abs()), t, flags)
    {
      hide Rep, Scheduler.C, Abs, AtRest, Objects, RtxSpec.Signal, Completes, RtxSched.Dispatch, TaskLists.Loose, Queueable;
      if t !in s.active {
        return;
      }
      SettledSched(s.C());
      CanSignal(Abs(), s.run, t, flags);
      SignalTouches(Abs(), t, flags);
      var woken := Signal(t, flags);
      if woken {
        Resume(t);
      }
    }

    method Resume(t: Ptr)
      requires Rep() && Queueable(s.C(), RDY) && Loose(s.g, t) && t in s.prio && t != s.run
      requires s.run in s.prio && Loose(s.g, s.run)
      modifies this, s
      ensures Rep() && Abs() == old(Abs()).(c := RtxSched.Dispatch(old(s.C()), t))
    {
      hide Scheduler.Rep, Scheduler.C, RtxSched.Dispatch, TaskLists.Loose, Queueable;
      s.Resume(t);
    }

    /** rt_evt_clr */
    method EvtClr(t: Ptr, flags: bv16)
      requires Rep() && KInv(Abs())
      modifies this
      ensures Rep() && Abs() == RtxSpec.EvtClr(old(Abs()), t, flags)
    {
      hide Scheduler.Rep, AtRest, Objects, Without;
      if t !in s.active {
        return;
      }
      RestFacts(s.C());
      FlagsIn(Abs(), t);
      events := events[t := Without(events[t], flags)];
    }

    /** rt_evt_psh */
    method EvtPsh(t: Ptr, flags: bv16)
      requires Rep() && Sched(s.C(), {}, NULL) && Objects(Abs()) && t in s.active
      modifies this, s
      ensures Rep() && Abs() == RtxSpec.EvtPsh(old(Abs()), t, flags)
    {
      hide Rep, Scheduler.C, Abs, Sched, Objects, RtxSpec.Signal, Completes, ToReady, TaskLists.Loose, Queueable;
      CanSignal(Abs(), NULL, t, flags);
      SignalTouches(Abs(), t, flags);
      var woken := Signal(t, flags);
      if woken {
        ResumeReady(t);
      }
    }

    method ResumeReady(t: Ptr)
      requires Rep() && Queueable(s.C(), RDY) && Loose(s.g, t) && t in s.prio
      modifies this, s
      ensures Rep() && Abs() == old(Abs()).(c := ToReady(old(s.C()), t))
    {
      hide Scheduler.Rep, Scheduler.C, ToReady, TaskLists.Loose, Queueable;
      s.ResumeReady(t);
    }

    // ----- rt_Mutex.c

    method SetMutex(m: Ptr, mu: Mutex)
      requires Rep()
      modifies this
      ensures Rep() && Abs() == old(Abs()).(mut := old(mut)[m := mu])
    {
      hide Scheduler.Rep, Scheduler.C;
      mut := mut[m := mu];
    }

    /** rt_mut_wait */
    method MutWait(m: Ptr, n: nat)
      requires Rep() && KInv(Abs()) && IsObject(Abs(), m, RtxList.MUCB) && n <= NO_TIMEOUT && s.run != s.idle
      modifies this, s
      ensures Rep() && Abs() == RtxSpec.MutWait(old(Abs()), m, n)
    {
      hide Rep, Scheduler.C, Abs, AtRest, Objects, RtxSpec.BlockOn, RtxSpec.Return, RtxSpec.MutWait, Reprio;
      OwnerActive(Abs(), m);
      RestFacts(s.C());
      MutWaitCases(Abs(), m, n);
      var mu := mut[m];
      if mu.level == 0 {
        SetMutex(m, Mutex(s.prio[s.run], 1, s.run));
        Return(OS_R_OK);
      } else if mu.owner == s.run {
        SetMutex(m, mu.(level := U16(mu.level + 1)));
        Return(OS_R_OK);
      } else if n == 0 {
        Return(OS_R_TMO);
      } else {
        if mu.prio < s.prio[s.run] {
          Inherit(m, mu.owner);
        }
        BlockOn(m, n, WAIT_MUT);
      }
    }

    /** The owner of m gets the running task's priority. */
    method Inherit(m: Ptr, owner: Ptr)
      requires Rep() && AtRest(s.C()) && owner in s.active && owner != s.run && s.run in s.prio && m in s.g.lists
      modifies this, s
      ensures Rep() && Abs() == old(Abs()).(c := Reprio(old(s.C()), owner, old(s.prio)[old(s.run)]))
      ensures AtRest(s.C()) && m in s.g.lists && s.run == old(s.run) && s.kind == old(s.kind)
    {
      hide Scheduler.Rep, Scheduler.C, AtRest, Reprio;
      RaiseRests(s.C(), owner);
      ReprioLists(s.C(), owner, s.prio[s.run]);
      ReprioFields(s.C(), owner, s.prio[s.run]);
      s.Resort(owner, s.prio[s.run]);
    }

    /** rt_mut_release */
    method MutRelease(m: Ptr)
      requires Rep() && KInv(Abs()) && IsObject(Abs(), m, RtxList.MUCB)
      modifies this, s
      ensures Rep() && Abs() == RtxSpec.MutRelease(old(Abs()), m)
    {
      hide Rep, Scheduler.C, Abs, AtRest, Objects, RtxSpec.Return, RtxSpec.MutRelease, LastRelease;
      OwnerActive(Abs(), m);
      MutReleaseCases(Abs(), m);
      var mu := mut[m];
      if mu.level == 0 || mu.owner != s.run {
        Return(OS_R_NOK);
        return;
      }
      SetMutex(m, mu.(level := mu.level - 1));
      if mu.level - 1 == 0 {
        FinalRelease(m, mu.prio);
      }
      Return(OS_R_OK);
    }

    /** The last release: the caller's priority is restored and the mutex is passed on. */
    method FinalRelease(m: Ptr, p: nat)
      requires Rep() && AtRest(s.C()) && m in s.g.lists && m != RDY
      modifies this, s
      ensures Rep() && Abs() == LastRelease(old(Abs()), m, p)
    {
      hide Rep, Scheduler.C, Abs, AtRest, RtxSpec.HandOver, RtxSched.PreemptCheck, Sched;
      SettledSched(s.C());
      RunPrioKeeps(s.C(), p);
      RestorePrio(p);
      var first := Head(m);
      if first != NULL {
        HandOver(m);
      } else {
        CheckPreempt();
      }
    }

    method RestorePrio(p: nat)
      requires Rep()
      modifies this, s
      ensures Rep() && Abs() == old(Abs()).(c := old(s.C()).(prio := old(s.prio)[s.run := p])) && s.run == old(s.run)
    {
      hide Scheduler.Rep, Scheduler.C;
      s.RestorePrio(p);
    }

    method CheckPreempt()
      requires Rep() && Sched(s.C(), {}, s.run) && s.run != NULL
      modifies this, s
      ensures Rep() && Abs() == old(Abs()).(c := RtxSched.PreemptCheck(old(s.C())))
    {
      hide Scheduler.Rep, Scheduler.C, Sched, RtxSched.PreemptCheck, Queueable, TaskLists.Loose;
      SchedHeads(s.C(), {}, s.run);
      CanQueue(s.C(), {}, s.run, RDY);
      IsLoose(s.C(), {}, s.run, s.run);
      s.PreemptCheck();
    }

    /** The mutex goes to its first waiter. */
    method HandOver(m: Ptr)
      requires Rep() && Sched(s.C(), {}, s.run) && s.run != NULL && m in s.g.lists && m != RDY && s.g.lists[m] != []
      modifies this, s
      ensures Rep() && Abs() == RtxSpec.HandOver(old(Abs()), m)
    {
      hide Scheduler.Rep, Scheduler.C, Sched, RtxSched.HandTo, Queueable, TaskLists.Loose, WakeFirst;
      WakeFacts(s.C(), s.run, m);
      WakePrio(s.C(), m);
      var t := s.Unblock(m);
      ret := ret[t := Val(0)];
      mut := mut[m := Mutex(s.prio[t], 1, t)];
      s.HandTo(t);
    }

    /** rt_mut_delete */
    method MutDelete(m: Ptr)
      requires Rep() && KInv(Abs()) && IsObject(Abs(), m, RtxList.MUCB)
      modifies this, s
      ensures Rep() && Abs() == RtxSpec.MutDelete(old(Abs()), m)
    {
      hide Rep, Scheduler.C, Abs, AtRest, Objects, RtxSpec.Discard, Reprio, Sched;
      OwnerActive(Abs(), m);
      SettledSched(s.C());
      var mu := mut[m];
      if mu.level != 0 {
        GiveBackPrio(m, mu.owner, mu.prio);
      }
      Discard(m);
    }

    /** The owner of a mutex that is deleted gets its old priority back. */
    method GiveBackPrio(m: Ptr, owner: Ptr, p: nat)
      requires Rep() && AtRest(s.C()) && owner in s.active && m in s.g.lists
      modifies this, s
      ensures Rep() && Abs() == old(Abs()).(c := Reprio(old(s.C()), owner, p))
      ensures Sched(s.C(), {}, s.run) && m in s.g.lists && s.run == old(s.run)
    {
      hide Scheduler.Rep, Scheduler.C, AtRest, Reprio, Sched;
      SettledSched(s.C());
      ActiveIsTask(s.C());
      ReprioKeeps(s.C(), {}, s.run, owner, p);
      ReprioLists(s.C(), owner, p);
      ReprioFields(s.C(), owner, p);
      if owner != s.run {
        s.Resort(owner, p);
      } else {
        OwnReprio(s.C(), p);
        s.RestorePrio(p);
      }
    }

    // ----- rt_Mailbox.c

    method SetMailbox(m: Ptr, b: Mailbox)
      requires Rep()
      modifies this
      ensures Rep() && Abs() == old(Abs()).(mbx := old(mbx)[m := b])
    {
      hide Scheduler.Rep, Scheduler.C;
      mbx := mbx[m := b];
    }

    method SetOwnMessage(x: int)
      requires Rep()
      modifies this
      ensures Rep() && Abs() == old(Abs()).(msg := old(msg)[s.run := x])
    {
      hide Scheduler.Rep, Scheduler.C;
      msg := msg[s.run := x];
    }

    /** The message a receive call returns. */
    method ReturnMessage(x: int)
      requires Rep()
      modifies this
      ensures Rep() && Abs() == old(Abs()).(ret := old(ret)[s.run := Message(x)])
    {
      hide Scheduler.Rep, Scheduler.C;
      ret := ret[s.run := Message(x)];
    }

    /** rt_mbx_send */
    method MbxSend(m: Ptr, x: int, n: nat)
      requires Rep() && KInv(Abs()) && IsObject(Abs(), m, RtxList.MCB) && n <= NO_TIMEOUT && s.run != s.idle
      modifies this, s
      ensures Rep() && Abs() == RtxSpec.MbxSend(old(Abs()), m, x, n)
    {
      hide Rep, Scheduler.C, Abs, AtRest, Objects, RtxSpec.BlockOn, RtxSpec.Return, RtxSpec.Wake, RtxSpec.MbxSend, Store;
      MailboxIn(Abs(), m);
      MbxSendCases(Abs(), m, x, n);
      var b := mbx[m];
      var first := Head(m);
      if first != NULL && b.state == 1 {
        Wake(m, Message(x));
        Return(OS_R_OK);
      } else if b.count == b.size {
        if n == 0 {
          Return(OS_R_TMO);
        } else {
          SendLater(m, x, n, first == NULL);
        }
      } else {
        SetMailbox(m, Store(b, x).(count := b.count + 1));
        Return(OS_R_OK);
      }
    }

    /** A sender waits for a free entry; the first one marks the mailbox as awaited by senders. */
    method SendLater(m: Ptr, x: int, n: nat, empty: bool)
      requires Rep() && AtRest(s.C()) && s.run != s.idle && 1 <= n <= NO_TIMEOUT
      requires m in s.g.lists && m != RDY && At(s.kind, m, RtxList.TCB) == RtxList.MCB && m in mbx
      modifies this, s
      ensures Rep()
      ensures var k := old(Abs()).(msg := old(msg)[old(s.run) := x]);
              Abs() == RtxSpec.BlockOn(if empty then k.(mbx := old(mbx)[m := old(mbx)[m].(state := 2)]) else k, m, n, WAIT_MBX)
    {
      hide Rep, Scheduler.C, Abs, AtRest, RtxSpec.BlockOn;
      if empty {
        SetMailbox(m, mbx[m].(state := 2));
      }
      SetOwnMessage(x);
      BlockOn(m, n, WAIT_MBX);
    }

    /** rt_mbx_wait */
    method MbxWait(m: Ptr, n: nat)
      requires Rep() && KInv(Abs()) && IsObject(Abs(), m, RtxList.MCB) && n <= NO_TIMEOUT && s.run != s.idle
      modifies this, s
      ensures Rep() && Abs() == RtxSpec.MbxWait(old(Abs()), m, n)
    {
      hide Rep, Scheduler.C, Abs, AtRest, Objects, RtxSpec.BlockOn, RtxSpec.Return, RtxSpec.Wake, RtxSpec.MbxWait, Store, Oldest, Step;
      MailboxIn(Abs(), m);
      MbxWaitCases(Abs(), m, n);
      var b := mbx[m];
      if b.count > 0 {
        TakeMessage(m, n);
      } else if n == 0 {
        Return(OS_R_TMO);
      } else {
        var first := Head(m);
        if first == NULL {
          SetMailbox(m, b.(state := 1));
        }
        BlockOn(m, n, WAIT_MBX);
      }
    }

    /** The part of rt_mbx_wait that finds a message in the mailbox. */
    method TakeMessage(m: Ptr, n: nat)
      requires Rep() && KInv(Abs()) && IsObject(Abs(), m, RtxList.MCB) && n <= NO_TIMEOUT && s.run != s.idle
      requires m in mbx && mbx[m].count > 0
      modifies this, s
      ensures Rep() && Abs() == RtxSpec.MbxWait(old(Abs()), m, n)
    {
      hide Rep, Scheduler.C, Abs, AtRest, Objects, RtxSpec.BlockOn, RtxSpec.Return, RtxSpec.Wake, RtxSpec.MbxWait, Store, Oldest, Step;
      MailboxIn(Abs(), m);
      MbxWaitCases(Abs(), m, n);
      var b := mbx[m];
      var first := Head(m);
      var b1 := b.(last := Step(b.last, b.size));
      ReturnMessage(Oldest(b));
      if first != NULL && b.state == 2 {
        SetMailbox(m, Store(b1, At(msg, first, 0)));
        Wake(m, Val(0));
      } else {
        SetMailbox(m, b1.(count := b.count - 1));
      }
    }

    // ----- rt_Robin.c and rt_System.c

    /** rt_chk_robin */
    method ChkRobin()
      requires Rep() && Sched(s.C(), {}, NULL) && s.C().Ready() != []
      modifies this, s
      ensures Rep() && Abs() == RtxSpec.ChkRobin(old(Abs()))
    {
      hide Scheduler.Rep, Scheduler.C, Sched, RtxSpec.Rotate, U16;
      SchedHeads(s.C(), {}, NULL);
      var head := s.Head(RDY);
      if robin.task != head {
        robin := Robin(head, U16(time + robin.tout - 1), robin.tout);
      }
      if robin.time == U16(time) {
        robin := robin.(task := NULL);
        s.Rotate();
      }
      HeadIsTask(old(s.C()));
    }

    /** rt_systick without the user timers, which live in their own module. */
    method Systick()
      requires Rep() && AtRest(s.C())
      modifies this, s
      ensures Rep() && Abs() == RtxSpec.Tick(old(Abs()))
    {
      hide Rep, Scheduler.C, Abs, AtRest, Sched, RtxSpec.ChkRobin, RtxSched.DispatchNext, RtxSched.DecDly, ReadyAt;
      Suspend();
      ChkRobinKeeps(Abs());
      ChkRobin();
      DelayTick();
    }

    /** The running task joins the ready list in front. */
    method Suspend()
      requires Rep() && AtRest(s.C())
      modifies this, s
      ensures Rep() && Abs() == old(Abs()).(c := ReadyAt(old(s.C()), 0, old(s.run)))
      ensures Sched(s.C(), {}, NULL) && s.C().Ready() != []
    {
      hide Scheduler.Rep, Scheduler.C, AtRest, ReadyAt, Sched, TaskLists.Loose;
      RestFacts(s.C());
      FrontKeeps(s.C());
      s.Suspend();
    }

    /** The clock, the time-outs and the choice of the next task. */
    method DelayTick()
      requires Rep() && Sched(s.C(), {}, NULL) && s.C().Ready() != []
      modifies this, s
      ensures Rep() && Abs() == old(Abs()).(time := (old(time) + 1) % 0x1_0000_0000,
                                            c := RtxSched.DispatchNext(RtxSched.DecDly(old(s.C()))))
    {
      hide Scheduler.Rep, Scheduler.C, Sched, RtxSched.DispatchNext, RtxSched.DecDly, Queueable;
      time := (time + 1) % 0x1_0000_0000;
      DecDlyKeeps(s.C());
      s.DecDly();
      SchedHeads(s.C(), {}, NULL);
      CanQueue(s.C(), {}, NULL, RDY);
      s.DispatchNext();
    }

    /** One queued request of an interrupt handler. */
    method Push(q: Request)
      requires Rep() && Sched(s.C(), {}, NULL) && Objects(Abs()) && RequestOk(Abs(), q)
      modifies this, s
      ensures Rep() && Abs() == RtxSpec.Push(old(Abs()), q)
    {
      hide Rep, Scheduler.C, Abs, Sched, Objects, RtxSpec.SemPsh, RtxSpec.EvtPsh;
      match q {
        case SemReq(h) => SemPsh(h);
        case EvtReq(t, flags) => EvtPsh(t, flags);
      }
    }

    /** rt_pop_req with the requests it finds in the queue. */
    method PopReq(qs: seq<Request>)
      requires Rep() && KInv(Abs()) && forall i :: 0 <= i < |qs| ==> RequestOk(Abs(), qs[i])
      modifies this, s
      ensures Rep() && Abs() == RtxSpec.PopReq(old(Abs()), qs)
    {
      hide Rep, Scheduler.C, Abs, AtRest, Sched, Objects, RequestOk, RtxSpec.PushAll, RtxSpec.Push, RtxSched.DispatchNext, ReadyAt;
      SuspendedRequests(Abs(), qs);
      Suspend();
      ghost var k0 := Abs();
      var i := 0;
      while i < |qs|
        invariant 0 <= i <= |qs| && Rep() && Sched(s.C(), {}, NULL) && s.C().Ready() != [] && Objects(Abs())
        invariant NULL !in s.g.tasks && s.active <= s.g.tasks
        invariant RtxSpec.PushAll(Abs(), qs[i..]) == RtxSpec.PushAll(k0, qs)
        invariant forall j :: i <= j < |qs| ==> RequestOk(Abs(), qs[j])
      {
        PushRest(Abs(), qs, i);
        Push(qs[i]);
        i := i + 1;
      }
      PushNone(Abs(), qs);
      PickNext();
    }

    method PickNext()
      requires Rep() && Sched(s.C(), {}, NULL) && s.C().Ready() != []
      modifies this, s
      ensures Rep() && Abs() == old(Abs()).(c := RtxSched.DispatchNext(old(s.C())))
    {
      hide Scheduler.Rep, Scheduler.C, Sched, RtxSched.DispatchNext, Queueable;
      SchedHeads(s.C(), {}, NULL);
      CanQueue(s.C(), {}, NULL, RDY);
      s.DispatchNext();
    }

    // ----- task calls and new objects

    /** rt_tsk_pass, rt_tsk_prio, rt_tsk_delete, thread creation and rt_dly_wait, with their results. */
    method TaskCall(a: Call)
      requires Rep() && KInv(Abs()) && Legal(Abs(), a) && (a.Pass? || a.SetPrio? || a.Delete? || a.Create? || a.Wait?)
      modifies this, s
      ensures Rep() && Abs() == Apply(old(Abs()), a)
    {
      hide Scheduler.Rep, Scheduler.C, AtRest, Objects, RtxSched.TskPass, RtxSched.TskPrio, RtxSched.TskDelete,
           RtxSched.TskCreate, RtxSched.Block, Queueable;
      match a {
        case Pass => s.TskPass();
        case SetPrio(t, p) =>
          var code := s.TskPrio(t, p);
          ret := ret[s.run := Code(code)];
        case Delete(t) =>
          var code := s.TskDelete(t);
          ret := ret[s.run := Code(code)];
        case Create(t, p) =>
          s.TskCreate(t, p);
          events, waits := events[t := 0], waits[t := 0];
        case Wait(n) =>
          RestFacts(s.C());
          s.Block(n, WAIT_DLY);
      }
    }

    /** rt_sem_init, rt_mut_init and rt_mbx_init; p_lnk of an unused control block is NULL already. */
    method InitObject(a: Call)
      requires Rep() && KInv(Abs()) && Legal(Abs(), a) && (a.InitSem? || a.InitMut? || a.InitMbx?)
      modifies this, s
      ensures Rep() && Abs() == Apply(old(Abs()), a)
    {
      hide Scheduler.Rep, Scheduler.C, AtRest, Objects, EmptyMailbox;
      match a {
        case InitSem(h, count) =>
          s.Retype(h, RtxList.SCB);
          tokens := tokens[h := count];
        case InitMut(h) =>
          s.Retype(h, RtxList.MUCB);
          mut := mut[h := FREE];
        case InitMbx(h, size) =>
          s.Retype(h, RtxList.MCB);
          mbx := mbx[h := EmptyMailbox(size)];
      }
    }

    method DeleteSem(h: Ptr)
      requires Rep() && KInv(Abs()) && IsObject(Abs(), h, RtxList.SCB)
      modifies this, s
      ensures Rep() && Abs() == RtxSpec.Discard(old(Abs()), h)
    {
      hide Rep, Scheduler.C, Abs, AtRest, Objects, Sched, RtxSpec.Discard;
      SettledSched(s.C());
      Discard(h);
    }

    /** A call on a semaphore or on event flags. */
    method ServeSignal(a: Call)
      requires Rep() && KInv(Abs()) && Legal(Abs(), a)
      requires a.SendSem? || a.WaitSem? || a.DeleteSem? || a.SetEvt? || a.WaitEvt? || a.ClrEvt?
      modifies this, s
      ensures Rep() && Abs() == Apply(old(Abs()), a)
    {
      hide Rep, Scheduler.C, Abs, AtRest, Objects, RtxSpec.Discard, RtxSpec.SemSend, RtxSpec.SemWait, RtxSpec.EvtSet,
           RtxSpec.EvtWait, RtxSpec.EvtClr, RtxSpec.Return;
      match a {
        case SendSem(h) => SemSend(h);
        case WaitSem(h, n) => SemWait(h, n);
        case DeleteSem(h) => DeleteSem(h);
        case SetEvt(t, flags) => EvtSet(t, flags);
        case WaitEvt(flags, n, and) => EvtWait(flags, n, and);
        case ClrEvt(t, flags) => EvtClr(t, flags);
      }
    }

    /** A call on a mutex or on a mailbox. */
    method ServeObject(a: Call)
      requires Rep() && KInv(Abs()) && Legal(Abs(), a)
      requires a.WaitMut? || a.ReleaseMut? || a.DeleteMut? || a.SendMbx? || a.WaitMbx?
      modifies this, s
      ensures Rep() && Abs() == Apply(old(Abs()), a)
    {
      hide Rep, Scheduler.C, Abs, AtRest, Objects, RtxSpec.MutWait, RtxSpec.MutRelease, RtxSpec.MutDelete, RtxSpec.MbxSend,
           RtxSpec.MbxWait;
      match a {
        case WaitMut(m, n) => MutWait(m, n);
        case ReleaseMut(m) => MutRelease(m);
        case DeleteMut(m) => MutDelete(m);
        case SendMbx(m, x, n) => MbxSend(m, x, n);
        case WaitMbx(m, n) => MbxWait(m, n);
      }
    }

    /** The body of one kernel entry. */
    method Serve(a: Call)
      requires Rep() && KInv(Abs()) && Legal(Abs(), a)
      modifies this, s
      ensures Rep() && Abs() == Apply(old(Abs()), a)
    {
      hide Rep, Scheduler.C, Abs, AtRest, Objects, RtxSpec.Tick, RtxSpec.PopReq, RtxSpec.Return, NewObject,
           RtxSched.TskPass, RtxSched.TskPrio, RtxSched.TskDelete, RtxSched.TskCreate, RtxSched.Block, Apply;
      if a.SendSem? || a.WaitSem? || a.DeleteSem? || a.SetEvt? || a.WaitEvt? || a.ClrEvt? {
        ServeSignal(a);
      } else if a.WaitMut? || a.ReleaseMut? || a.DeleteMut? || a.SendMbx? || a.WaitMbx? {
        ServeObject(a);
      } else if a.SysTick? || a.PendSV? {
        ServeTime(a);
      } else if a.InitSem? || a.InitMut? || a.InitMbx? {
        InitObject(a);
      } else {
        TaskCall(a);
      }
    }

    /** The tick and PendSV. */
    method ServeTime(a: Call)
      requires Rep() && KInv(Abs()) && Legal(Abs(), a) && (a.SysTick? || a.PendSV?)
      modifies this, s
      ensures Rep() && Abs() == Apply(old(Abs()), a)
    {
      hide Rep, Scheduler.C, Abs, AtRest, Objects, RtxSpec.Tick, RtxSpec.PopReq;
      match a {
        case SysTick => Systick();
        case PendSV(qs) => PopReq(qs);
      }
    }

    /** The context switch. */
    method SwitchContext()
      requires Rep()
      modifies s
      ensures Rep() && Abs() == old(Abs()).(c := Commit(old(s.C())))
    {
      hide Scheduler.Rep, Scheduler.C;
      s.SwitchContext();
    }

    /** One kernel entry: the call, then the context switch. The memory follows the abstract step and keeps its invariant. */
    method Enter(a: Call)
      requires Rep() && KInv(Abs()) && Legal(Abs(), a)
      modifies this, s
      ensures Rep() && KInv(Abs()) && Abs() == Do(old(Abs()), a)
    {
      hide Rep, Scheduler.C, Abs, KInv, Legal, Apply;
      CallKeepsInvariant(Abs(), a);
      Serve(a);
      SwitchContext();
    }

    /** Any run of the kernel: the pointer structures stay well formed and the kernel invariant holds at its end. */
    method Execute(calls: seq<Call>)
      requires Rep() && KInv(Abs()) && LegalRun(Abs(), calls)
      modifies this, s
      ensures Rep() && KInv(Abs()) && Abs() == RtxKeeps.After(old(Abs()), calls)
    {
      hide Rep, Scheduler.C, Abs, KInv, Legal, Do;
      ghost var k0 := Abs();
      var i := 0;
      while i < |calls|
        invariant 0 <= i <= |calls| && Rep() && KInv(Abs())
        invariant LegalRun(Abs(), calls[i..]) && RtxKeeps.After(Abs(), calls[i..]) == RtxKeeps.After(k0, calls)
      {
        assert calls[i..][0] == calls[i] && calls[i..][1..] == calls[i + 1..];
        Enter(calls[i]);
        i := i + 1;
      }
    }

    /** The first waiter of h, with r as the result of its call, becomes ready. */
    method WakeReady(h: Ptr, r: Ret)
      requires Rep() && Sched(s.C(), {}, NULL) && h in s.g.lists && h != RDY && s.g.lists[h] != []
      modifies this, s
      ensures Rep() && Abs() == RtxSpec.WakeReady(old(Abs()), h, r)
    {
      hide Scheduler.Rep, Scheduler.C, Sched, ToReady, WakeFirst;
      var t := s.WakeToReady(h, NULL);
      ret := ret[t := r];
    }

    /** p_lnk of an object. */
    method Head(h: Ptr) returns (first: Ptr)
      requires Rep() && h in s.g.lists
      ensures first != NULL <==> Abs().List(h) != []
      ensures first != NULL ==> first == Abs().List(h)[0]
    {
      hide Scheduler.Rep, Scheduler.C;
      first := s.Head(h);
    }
  }

  lemma SendCases(k: KState, h: Ptr)
    requires KInv(k) && IsObject(k, h, RtxList.SCB)
    ensures RtxSpec.SemSend(RtxSpec.Return(k, OS_R_OK), h) ==
            RtxSpec.Return(if k.List(h) == [] then RtxSpec.StoreToken(k, h) else RtxSpec.Wake(k, h, Val(1)), OS_R_OK)
  {
    hide RtxSched.Dispatch, WakeFirst, AtRest, Objects;
    if k.List(h) != [] {
      WakeThenReturn(k, h, Val(1), OS_R_OK);
    }
  }

  lemma WakeThenReturn(k: KState, h: Ptr, r: Ret, code: int)
    requires AtRest(k.c) && h in k.c.g.lists && h != RDY && k.List(h) != []
    ensures RtxSpec.Return(RtxSpec.Wake(k, h, r), code) == RtxSpec.Wake(RtxSpec.Return(k, code), h, r)
  {
    hide RtxSched.Dispatch, WakeFirst, AtRest;
    var t := k.List(h)[0];
    WakenIsOther(k.c, h);
    assert k.ret[t := r][k.c.run := Code(code)] == k.ret[k.c.run := Code(code)][t := r];
  }

  lemma WakenIsOther(c: Core, h: Ptr)
    requires AtRest(c) && h in c.g.lists && h != RDY && c.List(h) != []
    ensures c.List(h)[0] != c.run && RtxSched.Dispatch(WakeFirst(c, h), c.List(h)[0]).run == c.run
  {
    assert Placed(c, c.run);
  }

  /** The three outcomes of rt_evt_wait. */
  lemma EvtWaitCases(k: KState, flags: bv16, n: nat, and: bool)
    requires k.c.run in k.events
    ensures var run, e, r := k.c.run, k.events[k.c.run], RtxSpec.EvtWait(k, flags, n, and);
            if and && HasAll(e, flags) then
              r == RtxSpec.Return(k.(events := k.events[run := Without(e, flags)]), OS_R_EVT)
            else if !and && HasAny(e, flags) then
              r == RtxSpec.Return(k.(waits := k.waits[run := Common(e, flags)], events := k.events[run := Without(e, flags)]),
                                  OS_R_EVT)
            else
              r == RtxSpec.Return(k, OS_R_TMO).(waits := k.waits[run := flags],
                                                c := RtxSched.Block(k.c, n, if and then WAIT_AND else WAIT_OR))
  {
    hide RtxSpec.Return, HasAll, HasAny, Without, Common, RtxSched.Block;
  }

  lemma BootFields(idle: Ptr, tasks: set<Ptr>, objects: set<Ptr>)
    ensures var c := Boot(idle, tasks, objects);
            && c.idle == idle && c.g.tasks == tasks && c.g.lists.Keys == objects + {RDY}
            && (forall h :: h in c.g.lists && h != RDY ==> At(c.kind, h, RtxList.TCB) == RtxList.TCB)
            && (forall t :: t in tasks ==> c.Live(t) ==> c.State(t) == RUNNING)
  {
  }

  lemma MutWaitCases(k: KState, m: Ptr, n: nat)
    requires m in k.mut && k.c.run in k.c.prio
    ensures var run, mu, r := k.c.run, k.mut[m], RtxSpec.MutWait(k, m, n);
            if mu.level == 0 then r == RtxSpec.Return(k.(mut := k.mut[m := Mutex(k.c.prio[run], 1, run)]), OS_R_OK)
            else if mu.owner == run then
              r == RtxSpec.Return(k.(mut := k.mut[m := mu.(level := U16(mu.level + 1))]), OS_R_OK)
            else if n == 0 then r == RtxSpec.Return(k, OS_R_TMO)
            else if mu.prio < k.c.prio[run] then
              r == RtxSpec.BlockOn(k.(c := Reprio(k.c, mu.owner, k.c.prio[run])), m, n, WAIT_MUT)
            else r == RtxSpec.BlockOn(k, m, n, WAIT_MUT)
  {
    hide RtxSpec.Return, RtxSpec.BlockOn, Reprio, U16;
  }

  /** The part of rt_mut_release after the nesting level has reached zero. */
  ghost function LastRelease(k: KState, m: Ptr, p: nat): (r: KState) {
    var k1 := k.(c := k.c.(prio := k.c.prio[k.c.run := p]));
    if k1.List(m) == [] then k1.(c := RtxSched.PreemptCheck(k1.c)) else RtxSpec.HandOver(k1, m)
  }

  lemma MutReleaseCases(k: KState, m: Ptr)
    requires KInv(k) && IsObject(k, m, RtxList.MUCB) && m in k.mut
    ensures var run, mu, r := k.c.run, k.mut[m], RtxSpec.MutRelease(k, m);
            if mu.level == 0 || mu.owner != run then r == RtxSpec.Return(k, OS_R_NOK)
            else
              var k1 := k.(mut := k.mut[m := mu.(level := mu.level - 1)]);
              r == RtxSpec.Return(if mu.level - 1 == 0 then LastRelease(k1, m, mu.prio) else k1, OS_R_OK)
  {
    hide AtRest, Objects, LastRelease, RtxSched.PreemptCheck, RtxSpec.HandOver;
    if k.mut[m].level == 1 && k.mut[m].owner == k.c.run {
      LastReleaseReturn(k, m);
    }
  }

  lemma LastReleaseReturn(k: KState, m: Ptr)
    requires AtRest(k.c) && IsObject(k, m, RtxList.MUCB) && m in k.mut
    requires k.mut[m].level == 1 && k.mut[m].owner == k.c.run
    ensures RtxSpec.MutRelease(k, m) ==
            RtxSpec.Return(LastRelease(k.(mut := k.mut[m := k.mut[m].(level := 0)]), m, k.mut[m].prio), OS_R_OK)
  {
    hide AtRest, RtxSched.PreemptCheck, RtxSpec.HandOver;
    if k.List(m) != [] {
      HandOverReturn(k, m, k.mut[m].prio);
    } else {
      CheckRun(k.c.(prio := k.c.prio[k.c.run := k.mut[m].prio]));
    }
  }

  lemma HandOverReturn(k: KState, m: Ptr, p: nat)
    requires AtRest(k.c) && IsObject(k, m, RtxList.MUCB) && m in k.mut && k.List(m) != []
    ensures var k2 := k.(mut := k.mut[m := k.mut[m].(level := 0)], c := k.c.(prio := k.c.prio[k.c.run := p]));
            RtxSpec.Return(RtxSpec.HandOver(k2, m), OS_R_OK) == RtxSpec.HandOver(RtxSpec.Return(k2, OS_R_OK), m)
  {
    hide AtRest, RtxSched.HandTo, WakeFirst;
    HandOverRun(k.c, m, p);
    var t := k.List(m)[0];
    assert k.ret[t := Val(0)][k.c.run := Code(OS_R_OK)] == k.ret[k.c.run := Code(OS_R_OK)][t := Val(0)];
  }

  lemma CheckRun(c: Core)
    ensures RtxSched.PreemptCheck(c).run == c.run
  {
  }

  lemma HandOverRun(c: Core, m: Ptr, p: nat)
    requires AtRest(c) && m in c.g.lists && m != RDY && c.List(m) != []
    ensures var c1 := WakeFirst(c.(prio := c.prio[c.run := p]), m);
            c.List(m)[0] != c.run && RtxSched.HandTo(c1, c.List(m)[0]).run == c.run
  {
    WakenIsOther(c, m);
  }

  /** The running task is on no list, so a change of its priority moves nothing. */
  lemma OwnReprio(c: Core, p: nat)
    requires AtRest(c)
    ensures Reprio(c, c.run, p) == c.(prio := c.prio[c.run := p])
  {
    NotOnList(c);
  }

  lemma MbxSendCases(k: KState, m: Ptr, x: int, n: nat)
    requires KInv(k) && IsObject(k, m, RtxList.MCB) && m in k.mbx
    ensures var run, b, r := k.c.run, k.mbx[m], RtxSpec.MbxSend(k, m, x, n);
            if k.List(m) != [] && b.state == 1 then r == RtxSpec.Return(RtxSpec.Wake(k, m, Message(x)), OS_R_OK)
            else if b.count == b.size then
              if n == 0 then r == RtxSpec.Return(k, OS_R_TMO)
              else if k.List(m) == [] then
                r == RtxSpec.BlockOn(k.(mbx := k.mbx[m := b.(state := 2)], msg := k.msg[run := x]), m, n, WAIT_MBX)
              else r == RtxSpec.BlockOn(k.(msg := k.msg[run := x]), m, n, WAIT_MBX)
            else r == RtxSpec.Return(k.(mbx := k.mbx[m := Store(b, x).(count := b.count + 1)]), OS_R_OK)
  {
    hide AtRest, Objects, RtxSpec.BlockOn, RtxSpec.Return, RtxSpec.Wake, Store;
    if k.List(m) != [] {
      WakeThenReturn(k, m, Message(x), OS_R_OK);
    }
    assert k.mbx[m := k.mbx[m]] == k.mbx;
  }

  lemma MbxWaitCases(k: KState, m: Ptr, n: nat)
    requires KInv(k) && IsObject(k, m, RtxList.MCB) && m in k.mbx
    ensures var run, b, r := k.c.run, k.mbx[m], RtxSpec.MbxWait(k, m, n);
            if b.count > 0 then
              var b1, k1 := b.(last := Step(b.last, b.size)), k.(ret := k.ret[run := Message(Oldest(b))]);
              if k.List(m) != [] && b.state == 2 then
                r == RtxSpec.Wake(k1.(mbx := k.mbx[m := Store(b1, At(k.msg, k.List(m)[0], 0))]), m, Val(0))
              else r == k1.(mbx := k.mbx[m := b1.(count := b.count - 1)])
            else if n == 0 then r == RtxSpec.Return(k, OS_R_TMO)
            else if k.List(m) == [] then r == RtxSpec.BlockOn(k.(mbx := k.mbx[m := b.(state := 1)]), m, n, WAIT_MBX)
            else r == RtxSpec.BlockOn(k, m, n, WAIT_MBX)
  {
    hide AtRest, Objects, RtxSpec.BlockOn, RtxSpec.Return, RtxSpec.Wake, Store, Oldest, Step;
    assert k.mbx[m := k.mbx[m]] == k.mbx;
  }

  lemma HeadIsTask(c: Core)
    requires Sched(c, {}, NULL) && c.Ready() != []
    ensures c.Ready()[0] != NULL
  {
  }

  lemma ChkRobinKeeps(k: KState)
    requires Sched(k.c, {}, NULL) && k.c.Ready() != []
    ensures var k' := RtxSpec.ChkRobin(k);
            Sched(k'.c, {}, NULL) && k'.c.Ready() != [] && k'.time == k.time && k' == k.(c := k'.c, robin := k'.robin)
  {
    hide Sched, NextRobin;
    RotateKeeps(k.c);
  }

  /** The requests stay valid when the running task joins the ready list. */
  lemma SuspendedRequests(k: KState, qs: seq<Request>)
    requires KInv(k) && forall i :: 0 <= i < |qs| ==> RequestOk(k, qs[i])
    ensures var k0 := k.(c := ReadyAt(k.c, 0, k.c.run));
            && Objects(k0) && (forall i :: 0 <= i < |qs| ==> RequestOk(k0, qs[i]))
            && NULL !in k0.c.g.tasks && k0.c.active <= k0.c.g.tasks
  {
    hide AtRest, Objects, RequestOk, ReadyAt, Calm;
    var k0 := k.(c := ReadyAt(k.c, 0, k.c.run));
    RunIsTask(k.c);
    CalmFront(k.c);
    CalmTasks(k.c, k0.c, RDY, NULL);
    KeptCore(k, k0.c, k.ret);
    forall i | 0 <= i < |qs|
      ensures RequestOk(k0, qs[i])
    {
      FrontTypes(k, qs[i]);
    }
  }

  /** One pass of the loop in rt_pop_req. */
  lemma PushRest(k: KState, qs: seq<Request>, i: nat)
    requires Sched(k.c, {}, NULL) && k.c.Ready() != [] && Objects(k) && i < |qs|
    requires NULL !in k.c.g.tasks && k.c.active <= k.c.g.tasks
    requires forall j :: i <= j < |qs| ==> RequestOk(k, qs[j])
    ensures var k' := RtxSpec.Push(k, qs[i]);
            && Sched(k'.c, {}, NULL) && k'.c.Ready() != [] && Objects(k')
            && k'.c.g.tasks == k.c.g.tasks && k'.c.active == k.c.active
            && RtxSpec.PushAll(k', qs[i + 1..]) == RtxSpec.PushAll(k, qs[i..])
            && forall j :: i < j < |qs| ==> RequestOk(k', qs[j])
  {
    hide Sched, Objects, RequestOk, RtxSpec.Push;
    PushKeeps(k, qs[i]);
    PushKept(k, qs[i]);
    PushTasks(k, qs[i]);
    assert qs[i..][0] == qs[i] && qs[i..][1..] == qs[i + 1..];
    forall j | i < j < |qs|
      ensures RequestOk(RtxSpec.Push(k, qs[i]), qs[j])
    {
      PushTypes(k, qs[i], qs[j]);
    }
  }

  lemma PushNone(k: KState, qs: seq<Request>)
    ensures RtxSpec.PushAll(k, qs[|qs|..]) == k
  {
  }

  lemma MailboxIn(k: KState, m: Ptr)
    requires Objects(k) && IsObject(k, m, RtxList.MCB)
    ensures m in k.mbx
  {
    assert ObjectOk(k, m);
  }
}
