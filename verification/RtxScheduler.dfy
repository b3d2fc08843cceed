/** rt_List.c and rt_Task.c working in place on the scheduler's fields of the control blocks. */
module RtxScheduler {
  import opened Links
  import opened TaskLists
  import opened RtxOrder
  import opened Delays
  import RtxList
  import opened RtxSched
  import opened RtxPlaces
  import opened RtxRest
  import opened RtxSpec
  import opened RtxObjects
  import opened RtxFacts

  /**
   * Each field of the task and object control blocks is a map from addresses, so os_rdy.p_lnk is
   * lnk[RDY]. The ghost fields g and d say which lists the pointers form.
   */
  class Scheduler {
    const idle: Ptr
    var kind: map<Ptr, RtxList.Kind>
    var prio: map<Ptr, nat>
    var state: map<Ptr, TaskState>
    var lnk: map<Ptr, Ptr>
    var rlnk: map<Ptr, Ptr>
    var dlnk: map<Ptr, Ptr>
    var blnk: map<Ptr, Ptr>
    var delta: map<Ptr, nat>
    var active: set<Ptr>
    var run: Ptr
    var next: Ptr
    ghost var g: Shape
    ghost var d: seq<Delay>

    /**
     * The memory as rt_sys_init leaves it: the idle task runs and no other task is active. The control
     * blocks of the other tasks and of the objects are there, without a type yet.
     */
    constructor (idle: Ptr, tasks: set<Ptr>, objects: set<Ptr>)
      requires idle in tasks && tasks !! objects && {NULL, RDY, DLY} !! tasks + objects
      ensures Rep() && C() == Boot(idle, tasks, objects)
    {
      hide TaskLists.Linked, DelayLinked, DelayOk;
      BootLinked(idle, tasks, objects);
      this.idle, run, next, active := idle, idle, idle, {};
      kind := map x | x in tasks + objects + {RDY} :: if x == RDY then RtxList.HCB else RtxList.TCB;
      prio := map t | t in tasks :: 0;
      state := map t | t in tasks :: if t == idle then RUNNING else INACTIVE;
      lnk, rlnk := map x | x in tasks + objects + {RDY} :: NULL, map t | t in tasks :: NULL;
      dlnk, blnk, delta := map t | t in tasks + {DLY} :: NULL, map t | t in tasks :: NULL, map t | t in tasks + {DLY} :: 0;
      g, d := Boot(idle, tasks, objects).g, [];
    }

    /** The abstract scheduler state. */
    ghost function C(): (c: Core)
      reads this`g, this`d, this`active, this`kind, this`prio, this`state, this`run, this`next
      ensures c.g == g && c.idle == idle && c.active == active && c.kind == kind && c.prio == prio && c.state == state
      ensures c.run == run && c.next == next && c.d == d
    {
      Core(g, d, idle, active, kind, prio, state, run, next)
    }

    /** The pointer and delta fields represent the lists. */
    ghost predicate Rep()
      reads this`g, this`lnk, this`rlnk, this`dlnk, this`blnk, this`delta, this`d
    {
      Linked(g, lnk, rlnk) && DelayLinked(g.tasks, dlnk, blnk, delta, d) && DelayOk(d)
    }

    /** rt_put_prio */
    method PutPrio(h: Ptr, t: Ptr)
      requires Rep() && Loose(g, t) && t in prio && Queueable(C(), h)
      modifies this`lnk, this`rlnk, this`g
      ensures Rep() && g == Queue(old(g), prio, h, t) && g.tasks == old(g).tasks
    {
      hide TaskLists.Linked, DelayLinked, DelayOk, Loose, InsertPos, Ins;
      lnk, rlnk := RtxList.PutPrio(g, kind, prio, lnk, rlnk, h, t);
      g := Queue(g, prio, h, t);
    }

    /** rt_get_first */
    method GetFirst(h: Ptr) returns (first: Ptr)
      requires Rep() && Queueable(C(), h) && g.lists[h] != []
      modifies this`lnk, this`rlnk, this`g
      ensures Rep() && g == Pop(old(g), h) && first == old(g).lists[h][0] && first in g.tasks
    {
      hide TaskLists.Linked, DelayLinked, DelayOk;
      first, lnk, rlnk := RtxList.GetFirst(g, kind, lnk, rlnk, h);
      g := Pop(g, h);
    }

    /** rt_put_rdy_first */
    method PutRdyFirst(t: Ptr)
      requires Rep() && Loose(g, t)
      modifies this`lnk, this`rlnk, this`g
      ensures Rep() && g == Put(old(g), RDY, 0, t)
    {
      hide TaskLists.Linked, DelayLinked, DelayOk, Loose;
      lnk, rlnk := RtxList.PutRdyFirst(g, lnk, rlnk, t);
      g := Put(g, RDY, 0, t);
    }

    /** Queueing on an object as the wait calls do it, with their short cut for an empty list. */
    method WaitOn(h: Ptr, t: Ptr)
      requires Rep() && Loose(g, t) && t in prio && Queueable(C(), h) && h != RDY
      modifies this`lnk, this`rlnk, this`g
      ensures Rep() && g == Queue(old(g), prio, h, t)
    {
      hide TaskLists.Linked, DelayLinked, DelayOk, Loose;
      LinkedHead(g, lnk, rlnk, h);
      if lnk[h] != NULL {
        PutPrio(h, t);
      } else {
        lnk, rlnk := RtxList.PutOnly(g, lnk, rlnk, h, t);
        g := Queue(g, prio, h, t);
      }
    }

    /** rt_rmv_list */
    method RmvList(t: Ptr)
      requires Rep() && t in g.tasks && t !in g.stale && t in g.on && (g.on[t] != NULL <==> OnList(g, t))
      modifies this`lnk, this`rlnk, this`g
      ensures Rep() && g == Unlink(old(g), t) && g.tasks == old(g.tasks)
    {
      hide TaskLists.Linked, DelayLinked, DelayOk, Cut, OnList;
      lnk, rlnk := RtxList.RmvList(g, lnk, rlnk, t);
      UnlinkTasks(g, t);
      g := Unlink(g, t);
    }

    /** rt_put_dly */
    method PutDly(t: Ptr, n: nat)
      requires Rep() && t in g.tasks && t !in Tasks(d) && 1 <= n < NO_TIMEOUT
      modifies this`dlnk, this`blnk, this`delta, this`d
      ensures Rep() && d == DelayPut(old(d), t, n)
    {
      hide TaskLists.Linked, DelayLinked, DelayOk, DelayPut;
      dlnk, blnk, delta := RtxList.PutDly(g.tasks, dlnk, blnk, delta, d, t, n);
      d := DelayPut(d, t, n);
    }

    /** rt_rmv_dly */
    method RmvDly(t: Ptr)
      requires Rep() && t in g.tasks
      modifies this`dlnk, this`blnk, this`delta, this`d
      ensures Rep() && d == DelayDrop(old(d), t)
    {
      hide TaskLists.Linked, DelayLinked, DelayOk, DelayDrop;
      dlnk, blnk, delta := RtxList.RmvDly(g.tasks, dlnk, blnk, delta, d, t);
      d := DelayDrop(d, t);
    }

    /** rt_get_same_rdy_prio */
    method GetSameRdyPrio() returns (first: Ptr)
      requires Rep() && Queueable(C(), RDY) && g.lists[RDY] != [] && run in prio
      modifies this`lnk, this`g
      ensures Rep()
      ensures if prio[old(g).lists[RDY][0]] == prio[run] then g == Pop(old(g), RDY) && first == old(g).lists[RDY][0]
              else g == old(g) && first == NULL
      ensures first != NULL <==> prio[old(g).lists[RDY][0]] == prio[run]
    {
      hide DelayLinked, DelayOk, Chain, Backward;
      var s := g.lists[RDY];
      LinkedAt(g, lnk, rlnk, RDY, 0);
      assert s[0] in prio && s[0] != NULL;
      var same := prio[lnk[RDY]] == prio[run];
      first, lnk := RtxList.GetSameRdyPrio(g, prio, lnk, rlnk, run);
      g := if same then Pop(g, RDY) else g;
    }

    /** The walk of rt_resort_prio from a waiting task back to the object it waits for. */
    method FindHead(t: Ptr, ghost h: Ptr, ghost i: nat) returns (p: Ptr)
      requires Rep() && RtxList.Typed(g, kind) && h in g.lists && h != RDY && i < |g.lists[h]| && g.lists[h][i] == t
      requires t in rlnk
      ensures p == h
    {
      hide DelayLinked, DelayOk, Chain, Back;
      LinkedAt(g, lnk, rlnk, h, i);
      p := rlnk[t];
      ghost var j := i;
      BeforeKind(g, kind, lnk, rlnk, h, i);
      while kind[p] == RtxList.TCB
        invariant 0 <= j <= i && p == Before(h, g.lists[h], j) && p in kind
        invariant j == 0 <==> kind[p] != RtxList.TCB
        decreases j
      {
        LinkedAt(g, lnk, rlnk, h, j - 1);
        BeforeKind(g, kind, lnk, rlnk, h, j - 1);
        p := rlnk[p];
        j := j - 1;
      }
    }

    /** rt_resort_prio */
    method ResortPrio(t: Ptr)
      requires Rep() && RtxList.Typed(g, kind) && t in g.tasks && t !in g.stale && t in g.on && t in prio && t in state
      requires (g.on[t] != NULL <==> OnList(g, t)) && (g.on[t] == RDY <==> state[t] == READY)
      requires g.on[t] != NULL ==> Queueable(C(), g.on[t])
      modifies this`lnk, this`rlnk, this`g
      ensures Rep() && g == Resorted(old(g), prio, t)
    {
      hide DelayLinked, DelayOk, Unlink, Queue, Chain, Back;
      var p;
      BackKnown(g, lnk, rlnk, t);
      if rlnk[t] == NULL {
        if state[t] != READY {
          return;
        }
        p := RDY;
      } else {
        p := FindHead(t, g.on[t], Index(g.lists[g.on[t]], t));
      }
      assert p == g.on[t];
      CanRequeue(C(), t);
      RmvList(t);
      PutPrio(p, t);
    }

    /** The part of rt_dec_dly that takes a task off the wait list it is on. */
    method Detach(t: Ptr)
      requires Linked(g, lnk, rlnk) && t in g.tasks && t !in g.stale && t in g.on
      requires (g.on[t] != NULL <==> OnList(g, t)) && g.on[t] != RDY
      modifies this`lnk, this`rlnk, this`g
      ensures Linked(g, lnk, rlnk) && g == Fresh(Unlink(old(g), t), t) && Loose(g, t)
    {
      hide Chain, Back, TaskLists.Separate;
      BackKnown(g, lnk, rlnk, t);
      if rlnk[t] != NULL {
        ghost var h := g.on[t];
        ghost var i := Index(g.lists[h], t);
        LinkedAt(g, lnk, rlnk, h, i);
        LinkedCut(g, lnk, rlnk, h, i);
        ghost var g1, lnk0, rlnk0 := Cut(g, h, i), lnk, rlnk;
        LinkedReset(g1, lnk[Before(h, g.lists[h], i) := After(g.lists[h], i + 1)], UnlinkBack(rlnk, h, g.lists[h], i), t);
        lnk := lnk[rlnk[t] := lnk[t]];
        if lnk[t] != NULL {
          rlnk := rlnk[lnk[t] := rlnk[t]];
          lnk := lnk[t := NULL];
        }
        rlnk := rlnk[t := NULL];
        assert lnk == lnk0[Before(h, g.lists[h], i) := After(g.lists[h], i + 1)][t := NULL];
        assert rlnk == UnlinkBack(rlnk0, h, g.lists[h], i)[t := NULL];
        g := Fresh(g1, t);
      } else {
        assert g == Fresh(g, t);
      }
    }

    /** The part of rt_dec_dly that takes the head, whose time is up, off the delay list. */
    method DropDue(t: Ptr)
      requires DelayLinked(g.tasks, dlnk, blnk, delta, Age(d)) && InOrder(d) && d != [] && d[0] == Delay(t, 1)
      modifies this`dlnk, this`blnk, this`delta, this`d
      ensures DelayLinked(g.tasks, dlnk, blnk, delta, Age(d)) && d == old(d)[1..]
    {
      hide Threaded, Deltas, Chain, Back, NoDup;
      ghost var a, s, dlnk0, blnk0, delta0 := Age(d), Tasks(Age(d)), dlnk, blnk, delta;
      DelayAt(g.tasks, dlnk, blnk, delta, a, 0);
      DelayAt(g.tasks, dlnk, blnk, delta, a, 1);
      DelayLinkedDrop(g.tasks, dlnk, blnk, delta, a, 0);
      AgeTail(d);
      delta := delta[DLY := delta[t]];
      dlnk := dlnk[DLY := dlnk[t]];
      if dlnk[t] != NULL {
        blnk := blnk[dlnk[t] := DLY];
        dlnk := dlnk[t := NULL];
      }
      blnk := blnk[t := NULL];
      assert dlnk == dlnk0[DLY := After(s, 1)][t := NULL];
      assert delta == delta0[DLY := if 1 < |a| then delta0[DLY] + delta0[t] else 0];
      d := d[1..];
    }

    /** rt_dec_dly; while it runs d still counts the tick that is passing. */
    method DecDly()
      requires Rep() && Sched(C(), {}, NULL)
      modifies this`g, this`lnk, this`rlnk, this`state, this`dlnk, this`blnk, this`delta, this`d
      ensures Rep() && C() == RtxSched.DecDly(old(C()))
    {
      hide TaskLists.Linked, DelayLinked, DelayOk, Sched, Expire, U16;
      DelayAt(g.tasks, dlnk, blnk, delta, d, 0);
      if dlnk[DLY] == NULL {
        NothingDue(C());
        return;
      }
      AgeLinked(g.tasks, dlnk, blnk, delta, d);
      delta := delta[DLY := U16(delta[DLY] as int - 1)];
      ReleaseExpired();
      AgedOk(C());
      d := Age(d);
    }

    /** The release loop of rt_dec_dly. */
    method ReleaseExpired()
      requires Linked(g, lnk, rlnk) && DelayLinked(g.tasks, dlnk, blnk, delta, Age(d)) && Sched(C(), {}, NULL)
      modifies this`g, this`lnk, this`rlnk, this`state, this`dlnk, this`blnk, this`delta, this`d
      ensures Linked(g, lnk, rlnk) && DelayLinked(g.tasks, dlnk, blnk, delta, Age(d)) && Sched(C(), {}, NULL)
      ensures C() == Expire(old(C())) && (d == [] || Age(d)[0].rem != 0)
    {
      hide TaskLists.Linked, DelayLinked, Sched, Expire, TimeUp;
      ghost var c0 := C();
      DelayAt(g.tasks, dlnk, blnk, delta, Age(d), 0);
      while delta[DLY] == 0 && dlnk[DLY] != NULL
        invariant Linked(g, lnk, rlnk) && DelayLinked(g.tasks, dlnk, blnk, delta, Age(d))
        invariant Sched(C(), {}, NULL) && Expire(C()) == Expire(c0)
        invariant DLY in delta && DLY in dlnk && (dlnk[DLY] == NULL <==> d == [])
        invariant d != [] ==> delta[DLY] == Age(d)[0].rem
        decreases |d|
      {
        ReleaseDue();
        DelayAt(g.tasks, dlnk, blnk, delta, Age(d), 0);
      }
      AgedOk(C());
    }

    /** One pass of the release loop of rt_dec_dly. */
    method ReleaseDue()
      requires Linked(g, lnk, rlnk) && DelayLinked(g.tasks, dlnk, blnk, delta, Age(d))
      requires Sched(C(), {}, NULL) && d != [] && Age(d)[0].rem == 0
      modifies this`g, this`lnk, this`rlnk, this`state, this`dlnk, this`blnk, this`delta, this`d
      ensures Linked(g, lnk, rlnk) && DelayLinked(g.tasks, dlnk, blnk, delta, Age(d))
      ensures Sched(C(), {}, NULL) && C() == TimeUp(old(C())) && Expire(C()) == Expire(old(C())) && |d| < old(|d|)
    {
      hide TaskLists.Linked, DelayLinked, Sched, Loose, Unlink, InOrder, Queueable, Expire, Queue, TimeUp, Age, Tasks, OnList, Fresh;
      ghost var c0 := C();
      DueTask(c0);
      TimeUpKeeps(c0, {}, NULL);
      DelayAt(g.tasks, dlnk, blnk, delta, Age(d), 0);
      DueStep(c0);
      var t := dlnk[DLY];
      MakeReady(t);
      DropDue(t);
    }

    /** A task whose time is up moves from the list it waits on to the ready list. */
    method MakeReady(t: Ptr)
      requires Linked(g, lnk, rlnk) && Sched(C(), {}, NULL) && d != [] && d[0].task == t
      requires t in g.tasks && t !in g.stale && t in g.on && t in prio
      requires (g.on[t] != NULL <==> OnList(g, t)) && g.on[t] != RDY
      modifies this`g, this`lnk, this`rlnk, this`state
      ensures Linked(g, lnk, rlnk) && g.tasks == old(g.tasks)
      ensures TimeUp(old(C())) == C().(d := d[1..])
    {
      hide TaskLists.Linked, Sched, Loose, Unlink, InsertPos, TimeUp, OnList, Fresh, Known;
      DetachedQueue(C(), t);
      Detach(t);
      lnk, rlnk := RtxList.PutPrio(g, kind, prio, lnk, rlnk, RDY, t);
      g := Queue(g, prio, RDY, t);
      state := state[t := READY];
    }

    /** p_lnk of the list head h: the first task, or NULL. */
    method Head(h: Ptr) returns (first: Ptr)
      requires Rep() && h in g.lists
      ensures first == After(g.lists[h], 0) && (first == NULL <==> g.lists[h] == [])
    {
      hide DelayLinked, DelayOk;
      LinkedHead(g, lnk, rlnk, h);
      first := lnk[h];
    }

    /** rt_switch_req */
    method SwitchReq(t: Ptr)
      modifies this`next, this`state
      ensures next == t && state == old(state)[t := RUNNING]
    {
      next := t;
      state := state[t := RUNNING];
    }

    /** rt_dispatch(NULL) */
    method DispatchNext()
      requires Rep() && Queueable(C(), RDY) && C().Ready() != []
      modifies this
      ensures Rep() && run == old(run) && C() == RtxSched.DispatchNext(old(C()))
    {
      hide Rep, Queueable;
      var t := GetFirst(RDY);
      SwitchReq(t);
    }

    /** rt_dispatch on a task that is on no list. */
    method Dispatch(t: Ptr)
      requires Rep() && Queueable(C(), RDY) && Loose(g, t) && t in prio && run in prio
      requires prio[t] > prio[run] ==> Loose(g, run)
      modifies this
      ensures Rep() && run == old(run) && C() == RtxSched.Dispatch(old(C()), t)
    {
      hide Rep, Loose;
      if prio[t] > prio[run] {
        PutRdyFirst(run);
        state := state[run := READY];
        SwitchReq(t);
      } else {
        state := state[t := READY];
        PutPrio(RDY, t);
      }
    }

    /** A ready task of higher priority takes over from the running task, as several calls check at their end. */
    method PreemptCheck()
      requires Rep() && Queueable(C(), RDY) && run in prio && Loose(g, run)
      modifies this
      ensures Rep() && run == old(run) && C() == RtxSched.PreemptCheck(old(C()))
    {
      hide Rep, Loose, InsertPos;
      var first := Head(RDY);
      if first != NULL && prio[first] > prio[run] {
        StillQueueable(C(), RDY, InsertPos(prio, C().Ready(), C().Prio(run)), run, RDY);
        PutPrio(RDY, run);
        state := state[run := READY];
        DispatchNext();
      }
    }

    /** rt_block */
    method Block(n: nat, st: TaskState)
      requires Rep() && n <= NO_TIMEOUT
      requires n != 0 ==> Queueable(C(), RDY) && C().Ready() != [] && run in g.tasks && run !in Tasks(d)
      modifies this
      ensures Rep() && run == old(run) && C() == RtxSched.Block(old(C()), n, st)
    {
      hide Rep, DelayPut, RtxSched.DispatchNext, Known, Tasks;
      if n != 0 {
        if n < NO_TIMEOUT {
          PutDly(run, n);
        }
        state := state[run := st];
        DispatchNext();
      }
    }

    /** rt_tsk_pass */
    method TskPass()
      requires Rep() && AtRest(C()) && run != idle
      modifies this
      ensures Rep() && run == old(run) && C() == RtxSched.TskPass(old(C()))
    {
      hide Rep, Sched, InsertPos;
      RestFacts(C());
      StillQueueable(C(), RDY, 0, run, RDY);
      var t := GetSameRdyPrio();
      if t != NULL {
        PutPrio(RDY, run);
        state := state[run := READY];
        SwitchReq(t);
      }
    }

    /** rt_tsk_prio; t is NULL for the caller. */
    method TskPrio(t: Ptr, p: nat) returns (code: int)
      requires Rep() && AtRest(C()) && run != idle
      modifies this
      ensures Rep() && run == old(run) && C() == RtxSched.TskPrio(old(C()), t, p)
      ensures code == if t != NULL && t !in old(active) then OS_R_NOK else OS_R_OK
    {
      hide Rep, AtRest, RtxSched.PreemptCheck, RtxSched.Dispatch, Reprio;
      if t == NULL {
        OwnPrio(p);
        return OS_R_OK;
      }
      if t !in active {
        return OS_R_NOK;
      }
      if t == run {
        OwnPrio(p);
      } else {
        OtherPrio(t, p);
      }
      code := OS_R_OK;
    }

    /** The branch of rt_tsk_prio for the running task. */
    method OwnPrio(p: nat)
      requires Rep() && AtRest(C())
      modifies this
      ensures Rep() && run == old(run) && C() == RtxSched.PreemptCheck(Reprio(old(C()), old(run), p))
    {
      hide Rep, Sched, RtxSched.PreemptCheck;
      RestFacts(C());
      NotOnList(C());
      prio := prio[run := p];
      PreemptCheck();
    }

    /** The branch of rt_tsk_prio for another task. */
    method OtherPrio(t: Ptr, p: nat)
      requires Rep() && AtRest(C()) && t in active && t != run
      modifies this
      ensures Rep() && run == old(run) && C() == RtxSched.TskPrio(old(C()), t, p)
    {
      hide Rep, Sched, Reprio, RtxSched.Dispatch, Queueable;
      ghost var c := C();
      RestFacts(c);
      ReprioFields(c, t, p);
      Resort(t, p);
      if state[t] == READY {
        OtherReady(c, t, p);
        var first := GetFirst(RDY);
        Dispatch(first);
      }
    }

    /** A task's new priority and rt_resort_prio. */
    method Resort(t: Ptr, p: nat)
      requires Rep() && AtRest(C()) && t in active
      modifies this
      ensures Rep() && run == old(run) && C() == Reprio(old(C()), t, p) && t in state
    {
      hide Rep, Sched, Unlink, Queue, OnList;
      CanResort(C(), t, p);
      prio := prio[t := p];
      ResortPrio(t);
    }

    /** rt_tsk_delete; t is NULL for the caller. */
    method TskDelete(t: Ptr) returns (code: int)
      requires Rep() && AtRest(C()) && run != idle
      modifies this
      ensures Rep() && run == old(run) && C() == RtxSched.TskDelete(old(C()), t)
      ensures code == if t != NULL && t != old(run) && t !in old(active) then OS_R_NOK else OS_R_OK
    {
      hide Rep, Sched, RtxSched.DispatchNext, Known, Unlink, DelayDrop;
      RestFacts(C());
      if t == NULL || t == run {
        state := state[run := INACTIVE];
        active := active - {run};
        DispatchNext();
      } else {
        if t !in active {
          return OS_R_NOK;
        }
        DeleteOther(t);
      }
      code := OS_R_OK;
    }

    /** The branch of rt_tsk_delete for another task. */
    method DeleteOther(t: Ptr)
      requires Rep() && AtRest(C()) && t in active && t != run && t != NULL
      modifies this
      ensures Rep() && run == old(run) && C() == RtxSched.TskDelete(old(C()), t)
    {
      hide Rep, Sched, Unlink, DelayDrop, Queueable;
      CanResort(C(), t, 0);
      RmvList(t);
      RmvDly(t);
      active := active - {t};
    }

    /** rt_init_context, without the stack and the event flags. */
    method InitContext(t: Ptr, p: nat)
      requires Rep() && Loose(g, t) && t in g.tasks && t !in Tasks(d) && t in kind && kind[t] == RtxList.TCB
      modifies this`g, this`lnk, this`rlnk, this`dlnk, this`blnk, this`delta, this`state, this`prio, this`kind
      ensures Rep() && g == Fresh(old(g), t) && kind == old(kind)
      ensures state == old(state)[t := READY] && prio == old(prio)[t := p]
    {
      hide TaskLists.Linked, DelayLinked, DelayOk, Loose;
      LinkedReset(g, lnk, rlnk, t);
      DelayReset(g.tasks, dlnk, blnk, delta, d, t);
      assert kind[t := RtxList.TCB] == kind;
      kind := kind[t := RtxList.TCB];
      state := state[t := READY];
      prio := prio[t := p];
      lnk := lnk[t := NULL];
      rlnk := rlnk[t := NULL];
      dlnk := dlnk[t := NULL];
      blnk := blnk[t := NULL];
      delta := delta[t := 0];
      g := Fresh(g, t);
    }

    /** Thread creation, once a control block has been found for the new task. */
    method TskCreate(t: Ptr, p: nat)
      requires Rep() && AtRest(C()) && t in g.tasks && !C().Live(t)
      modifies this
      ensures Rep() && run == old(run) && C() == RtxSched.TskCreate(old(C()), t, p)
    {
      hide Rep, Sched, RtxSched.Dispatch, Known;
      RestFacts(C());
      CanCreate(C(), t, p);
      InitContext(t, p);
      active := active + {t};
      Dispatch(t);
    }

    /** The running task queues on h and blocks. */
    method WaitFor(h: Ptr, n: nat, st: TaskState)
      requires Rep() && AtRest(C()) && run != idle && 1 <= n <= NO_TIMEOUT
      requires h in g.lists && h != RDY && RtxList.IsWaitKind(At(kind, h, RtxList.TCB))
      modifies this
      ensures Rep() && run == old(run) && C() == RtxSched.Block(QueueRun(old(C()), h), n, st)
    {
      hide Rep, AtRest, RtxSched.Block, InsertPos, Known;
      ghost var c := C();
      RestFacts(c);
      SettledSched(c);
      CanQueue(c, {}, c.run, h);
      StillQueueable(c, h, InsertPos(prio, c.List(h), c.Prio(run)), run, RDY);
      WaitOn(h, run);
      Block(n, st);
    }

    /** The first waiter of h leaves the list and the delay list. */
    method Unblock(h: Ptr) returns (t: Ptr)
      requires Rep() && Queueable(C(), h) && g.lists[h] != []
      modifies this
      ensures Rep() && run == old(run) && t == old(g).lists[h][0] && C() == WakeFirst(old(C()), h)
    {
      hide Rep, Known, DelayDrop;
      t := GetFirst(h);
      RmvDly(t);
    }

    /** The first waiter of h is woken and dispatched. */
    method WakeDispatch(h: Ptr) returns (t: Ptr)
      requires Rep() && AtRest(C()) && h in g.lists && h != RDY && g.lists[h] != []
      modifies this
      ensures Rep() && run == old(run) && C() == RtxSched.Dispatch(WakeFirst(old(C()), h), old(g).lists[h][0])
      ensures t == old(g).lists[h][0] && t != old(run)
    {
      hide Rep, AtRest, Queueable, RtxSched.Dispatch, WakeFirst, TaskLists.Loose;
      SettledSched(C());
      WakeFacts(C(), run, h);
      WakePrio(C(), h);
      t := Unblock(h);
      Dispatch(t);
    }

    /** The first waiter of h is woken and becomes ready. */
    method WakeToReady(h: Ptr, ghost cur: Ptr) returns (t: Ptr)
      requires Rep() && Sched(C(), {}, cur) && h in g.lists && h != RDY && g.lists[h] != []
      modifies this
      ensures Rep() && run == old(run) && Sched(C(), {}, cur)
      ensures C() == ToReady(WakeFirst(old(C()), h), old(g).lists[h][0])
      ensures t == old(g).lists[h][0]
    {
      hide Rep, Sched, Queueable, WakeFirst, TaskLists.Loose, InsertPos;
      WakeReadyKeeps(C(), cur, h);
      WakeFacts(C(), cur, h);
      WakePrio(C(), h);
      t := Unblock(h);
      ghost var c1 := C();
      state := state[t := READY];
      QueueableState(c1, state);
      PutPrio(RDY, t);
    }

    /** The waiters of h become ready, as in the delete calls, which store r as the result of each wait. */
    method WakeAll(h: Ptr, r: Ret, ret: map<Ptr, Ret>) returns (ret': map<Ptr, Ret>)
      requires Rep() && Sched(C(), {}, run) && h in g.lists && h != RDY
      modifies this
      ensures Rep() && run == old(run) && C() == RtxSched.WakeAll(old(C()), h)
      ensures ret' == RetAll(ret, old(g).lists[h], r)
    {
      hide Rep, Sched, ToReady, WakeFirst, RtxSched.WakeAll, RetAll;
      ret' := ret;
      ghost var c := C();
      var first := Head(h);
      while first != NULL
        invariant Rep() && Sched(C(), {}, run) && h in g.lists && run == old(run)
        invariant first == NULL <==> g.lists[h] == []
        invariant RtxSched.WakeAll(C(), h) == RtxSched.WakeAll(c, h)
        invariant RetAll(ret', g.lists[h], r) == RetAll(ret, c.g.lists[h], r)
        decreases |g.lists[h]|
      {
        WokenList(C(), ret', h, r);
        var t := WakeToReady(h, run);
        ret' := ret'[t := r];
        first := Head(h);
      }
      NoneLeft(C(), ret', h, r);
    }

    /** The waiters of h become ready, then the most urgent task runs. */
    method ReleaseAll(h: Ptr, r: Ret, ret: map<Ptr, Ret>) returns (ret': map<Ptr, Ret>)
      requires Rep() && Sched(C(), {}, run) && run != NULL && h in g.lists && h != RDY
      modifies this
      ensures Rep() && run == old(run) && C() == RtxSched.PreemptCheck(RtxSched.WakeAll(old(C()), h))
      ensures ret' == RetAll(ret, old(g).lists[h], r)
    {
      hide Rep, Sched, RtxSched.WakeAll, RtxSched.PreemptCheck, Queueable, TaskLists.Loose, RetAll;
      WakeAllKeeps(C(), run, h);
      ret' := WakeAll(h, r, ret);
      SchedHeads(C(), {}, run);
      CanQueue(C(), {}, run, RDY);
      IsLoose(C(), {}, run, run);
      PreemptCheck();
    }

    // ----- steps of the service calls

    /** rt_rmv_dly in a service call. */
    method Undelay(t: Ptr)
      requires Rep() && t in g.tasks
      modifies this
      ensures Rep() && run == old(run) && C() == old(C()).(d := DelayDrop(old(d), t))
    {
      hide Rep, DelayDrop;
      RmvDly(t);
    }

    /** A task whose event wait is over, on no list, is made ready and dispatched. */
    method Resume(t: Ptr)
      requires Rep() && Queueable(C(), RDY) && Loose(g, t) && t in prio && run in prio && Loose(g, run) && t != run
      modifies this
      ensures Rep() && run == old(run) && C() == RtxSched.Dispatch(old(C()), t)
    {
      hide Rep, Queueable, TaskLists.Loose, RtxSched.Dispatch;
      ghost var c := C();
      state := state[t := READY];
      QueueableState(c, state);
      Dispatch(t);
      DispatchReady(c, t);
    }

    /** The same from rt_pop_req. */
    method ResumeReady(t: Ptr)
      requires Rep() && Queueable(C(), RDY) && Loose(g, t) && t in prio
      modifies this
      ensures Rep() && run == old(run) && C() == ToReady(old(C()), t)
    {
      hide Rep, Queueable, TaskLists.Loose, InsertPos;
      ghost var c := C();
      state := state[t := READY];
      QueueableState(c, state);
      PutPrio(RDY, t);
    }

    /** The running task gets back the priority it had before it inherited another. */
    method RestorePrio(p: nat)
      requires Rep()
      modifies this
      ensures Rep() && run == old(run) && C() == old(C()).(prio := old(prio)[run := p])
    {
      hide Rep;
      prio := prio[run := p];
    }

    /** The check at the end of rt_mut_release which task continues. */
    method HandTo(t: Ptr)
      requires Rep() && Queueable(C(), RDY) && Loose(g, t) && t in prio && run in prio && Loose(g, run) && t != run
      modifies this
      ensures Rep() && run == old(run) && C() == RtxSched.HandTo(old(C()), t)
    {
      hide Rep, RtxSched.Dispatch, RtxSched.DispatchNext, Known;
      var first := Head(RDY);
      HeadKnown(C());
      if first == NULL || prio[run] >= prio[first] {
        Dispatch(t);
      } else {
        YieldBoth(t);
      }
    }

    /** The running task and t become ready, then the first ready task runs. */
    method YieldBoth(t: Ptr)
      requires Rep() && Queueable(C(), RDY) && Loose(g, t) && t in prio && run in prio && Loose(g, run) && t != run
      modifies this
      ensures Rep() && run == old(run) && C() == RtxSched.DispatchNext(ToReady(ToReady(old(C()), run), t))
    {
      hide Rep, TaskLists.Loose, InsertPos, RtxSched.DispatchNext, Known;
      StillLoose(g, prio, run, t);
      StillQueueable(C(), RDY, InsertPos(prio, C().Ready(), C().Prio(run)), run, RDY);
      PutPrio(RDY, run);
      state := state[run := READY];
      StillQueueable(C(), RDY, InsertPos(prio, C().Ready(), C().Prio(t)), t, RDY);
      PutPrio(RDY, t);
      state := state[t := READY];
      DispatchNext();
    }

    /** The running task goes to the front of the ready list, at the start of rt_systick and rt_pop_req. */
    method Suspend()
      requires Rep() && Loose(g, run)
      modifies this
      ensures Rep() && run == old(run) && C() == ReadyAt(old(C()), 0, run)
    {
      hide Rep, TaskLists.Loose;
      state := state[run := READY];
      PutRdyFirst(run);
    }

    /** The swap of rt_chk_robin. */
    method Rotate()
      requires Rep() && Sched(C(), {}, NULL) && C().Ready() != []
      modifies this
      ensures Rep() && run == old(run) && C() == RtxSpec.Rotate(old(C()))
    {
      hide Rep, Sched, InsertPos, Known, TaskLists.Loose;
      CanRotate(C());
      var t := GetFirst(RDY);
      PutPrio(RDY, t);
    }

    /** A deleted object loses its type, a new one gets one. */
    method Retype(h: Ptr, ty: RtxList.Kind)
      requires Rep()
      modifies this
      ensures Rep() && run == old(run) && C() == old(C()).(kind := old(kind)[h := ty])
    {
      hide Rep;
      kind := kind[h := ty];
    }

    /** The context switch that ends every kernel call. */
    method SwitchContext()
      requires Rep()
      modifies this
      ensures Rep() && C() == Commit(old(C()))
    {
      hide Rep;
      run := next;
    }
  }
}
