/** What the invariants say at the places where the kernel reads and writes its control blocks. */
module RtxFacts {
  import opened Links
  import opened TaskLists
  import opened RtxOrder
  import opened Delays
  import RtxList
  import opened RtxSched
  import opened RtxPlaces
  import opened RtxRest
  import opened RtxSpec
  import opened RtxObjects

  /** A list that rt_put_prio and rt_get_first can work on: its head tells wait lists from the ready list. */
  ghost predicate Queueable(c: Core, h: Ptr) {
    && h in c.g.lists && h in c.kind && RtxList.IsWaitKind(c.kind[h]) == (h != RDY) && Known(c.prio, c.g.lists[h])
  }

  lemma UnlinkTasks(g: Shape, t: Ptr)
    ensures Unlink(g, t).tasks == g.tasks
  {
  }

  /** What the scheduling invariant says about the lists a call may touch. */
  lemma CanQueue(c: Core, hands: set<Ptr>, cur: Ptr, h: Ptr)
    requires Sched(c, hands, cur) && h in c.g.lists
    ensures h == RDY || c.g.lists[h] != [] || RtxList.IsWaitKind(At(c.kind, h, RtxList.TCB)) ==> Queueable(c, h)
  {
    forall i | 0 <= i < |c.g.lists[h]|
      ensures c.g.lists[h][i] in c.prio
    {
      assert c.g.lists[h][i] in c.g.tasks;
    }
  }

  /** A task in hand, or the running one, is on no list. */
  lemma IsLoose(c: Core, hands: set<Ptr>, cur: Ptr, t: Ptr)
    requires Sched(c, hands, cur) && (t in hands || (t == cur && cur != NULL))
    ensures Loose(c.g, t) && t in c.g.tasks && t in c.prio && t !in Tasks(c.d)
  {
    assert if t in hands then InHand(c, t) else Placed(c, t);
  }

  /** t moved within the list it is on, to its place by priority. */
  ghost function Resorted(g: Shape, prio: map<Ptr, nat>, t: Ptr): (r: Shape) {
    if OnList(g, t) then Queue(Unlink(g, t), prio, g.on[t], t) else g
  }

  lemma BeforeKind(g: Shape, kind: map<Ptr, RtxList.Kind>, lnk: map<Ptr, Ptr>, rlnk: map<Ptr, Ptr>, h: Ptr, i: nat)
    requires Linked(g, lnk, rlnk) && RtxList.Typed(g, kind) && h in g.lists && h != RDY && i < |g.lists[h]|
    ensures Before(h, g.lists[h], i) in kind
    ensures kind[Before(h, g.lists[h], i)] == RtxList.TCB <==> i > 0
    ensures i > 0 ==> rlnk[Before(h, g.lists[h], i)] == Before(h, g.lists[h], i - 1)
  {
    if i > 0 {
      LinkedAt(g, lnk, rlnk, h, i - 1);
    }
  }

  /** The back link of a task tells whether it is on a wait list. */
  lemma BackKnown(g: Shape, lnk: map<Ptr, Ptr>, rlnk: map<Ptr, Ptr>, t: Ptr)
    requires Linked(g, lnk, rlnk) && t in g.tasks && t !in g.stale && t in g.on
    requires g.on[t] != NULL <==> OnList(g, t)
    ensures t in rlnk && (rlnk[t] == NULL <==> g.on[t] == NULL || g.on[t] == RDY)
  {
    if OnList(g, t) {
      LinkedAt(g, lnk, rlnk, g.on[t], Index(g.lists[g.on[t]], t));
    }
  }

  lemma CanRequeue(c: Core, t: Ptr)
    requires Separate(c.g) && t in c.g.tasks && OnList(c.g, t) && Queueable(c, c.g.on[t])
    ensures var c' := c.(g := Unlink(c.g, t)); Loose(c'.g, t) && Queueable(c', c.g.on[t])
  {
    var h := c.g.on[t];
    var i := Index(c.g.lists[h], t);
    SeparateUnlink(c.g, t);
    DelMembers(c.g.lists[h], i);
    forall j | 0 <= j < |Del(c.g.lists[h], i)|
      ensures Del(c.g.lists[h], i)[j] in c.prio
    {
      assert Del(c.g.lists[h], i)[j] == c.g.lists[h][if j < i then j else j + 1];
    }
  }

  lemma AgeTail(d: seq<Delay>)
    requires d != []
    ensures Age(d[1..]) == Del(Age(d), 0)
  {
  }

  lemma NothingDue(c: Core)
    requires c.d == []
    ensures RtxSched.DecDly(c) == c
  {
    assert Age(c.d) == c.d;
  }

  /** Lowering the head's delta lowers every remaining time. */
  lemma AgeLinked(tasks: set<Ptr>, dlnk: map<Ptr, Ptr>, blnk: map<Ptr, Ptr>, delta: map<Ptr, nat>, d: seq<Delay>)
    requires DelayLinked(tasks, dlnk, blnk, delta, d) && DelayOk(d) && d != []
    ensures DLY in delta && DelayLinked(tasks, dlnk, blnk, delta[DLY := U16(delta[DLY] as int - 1)], Age(d))
  {
    hide Chain, Back;
    DelayAt(tasks, dlnk, blnk, delta, d, 0);
    var a, s, delta' := Age(d), Tasks(d), delta[DLY := U16(delta[DLY] as int - 1)];
    assert Tasks(a) == s;
    forall i | 0 <= i <= |a|
      ensures Before(DLY, s, i) in delta'
      ensures delta'[Before(DLY, s, i)] == if i == |a| then 0 else a[i].rem - RemBefore(a, i)
    {
      assert Before(DLY, s, i) in delta;
      assert i > 0 ==> s[i - 1] in s;
    }
  }

  lemma AgedOk(c: Core)
    requires Sched(c, {}, NULL) && (c.d == [] || Age(c.d)[0].rem != 0)
    ensures Expire(c) == c && DelayOk(Age(c.d))
  {
    assert Tasks(Age(c.d)) == Tasks(c.d);
  }

  /** The task at the head of the delay list when its time is up. */
  lemma DueTask(c: Core)
    requires Sched(c, {}, NULL) && c.d != [] && Age(c.d)[0].rem == 0
    ensures var t := c.d[0].task;
            && c.d[0] == Delay(t, 1) && InOrder(c.d) && t in c.g.tasks && t !in c.g.stale && t in c.g.on && t in c.prio
            && (c.g.on[t] != NULL <==> OnList(c.g, t)) && c.g.on[t] != RDY
  {
    hide Sorted;
    DelayedLive(c, {}, NULL, 0);
    OnListOrLoose(c, {}, NULL, c.d[0].task);
    assert Placed(c, c.d[0].task);
  }

  lemma DetachedQueue(c: Core, t: Ptr)
    requires Sched(c, {}, NULL) && t in c.g.tasks && t in c.g.on && c.g.on[t] != RDY && c.d != [] && c.d[0].task == t
    ensures var c' := c.(g := Fresh(Unlink(c.g, t), t));
            && Queueable(c', RDY) && c'.g.tasks == c.g.tasks
            && TimeUp(c) == c.(g := Queue(c'.g, c.prio, RDY, t), d := c.d[1..], state := c.state[t := READY])
  {
    hide Sorted;
    CanQueue(c, {}, NULL, RDY);
    var g := Unlink(c.g, t);
    assert At(g.lists, RDY, []) == c.Ready();
    assert g.stale - {t} - {t} == g.stale - {t};
  }

  lemma DueStep(c: Core)
    requires c.d != [] && Age(c.d)[0].rem == 0 && c.d[0].rem >= 1
    ensures Expire(TimeUp(c)) == Expire(c)
  {
  }

  /** Linking or unlinking tasks leaves every list fit for rt_put_prio and rt_get_first. */
  lemma StillQueueable(c: Core, h: Ptr, i: nat, t: Ptr, x: Ptr)
    requires Queueable(c, x) && t in c.prio
    ensures i <= |c.List(h)| ==> Queueable(c.(g := Put(c.g, h, i, t)), x)
    ensures Queueable(c.(g := Pop(c.g, h)), x)
  {
  }

  /** What holds between calls at the running task and the ready list. */
  lemma RestFacts(c: Core)
    requires AtRest(c)
    ensures Queueable(c, RDY) && Loose(c.g, c.run)
    ensures c.run in c.g.tasks && c.run in c.prio && c.run in c.state && c.run !in Tasks(c.d) && c.run != NULL
    ensures c.run != c.idle ==> c.Ready() != []
    ensures NULL !in c.g.lists && NULL !in c.g.tasks && c.active <= c.g.tasks
  {
    hide Sorted, InOrder;
    SettledSched(c);
    CanQueue(c, {}, c.run, RDY);
    IsLoose(c, {}, c.run, c.run);
    if c.run != c.idle {
      IdleReady(c, {}, c.run);
    }
  }

  lemma NotOnList(c: Core)
    requires AtRest(c)
    ensures !OnList(c.g, c.run)
  {
    assert Placed(c, c.run);
  }

  /** What rt_resort_prio relies on. */
  lemma CanResort(c: Core, t: Ptr, p: nat)
    requires AtRest(c) && t in c.active
    ensures RtxList.Typed(c.g, c.kind) && t in c.g.tasks && t !in c.g.stale && t in c.g.on && t in c.prio && t in c.state
    ensures (c.g.on[t] != NULL <==> OnList(c.g, t)) && (c.g.on[t] == RDY <==> c.state[t] == READY)
    ensures c.g.on[t] != NULL ==> Queueable(c.(prio := c.prio[t := p]), c.g.on[t])
  {
    hide Sorted, InOrder;
    OnListOrLoose(c, {}, c.run, t);
    assert Placed(c, t);
    if OnList(c.g, t) {
      CanQueue(c, {}, c.run, c.g.on[t]);
    }
  }

  /** A ready task changed its priority: the head of the ready list can be dispatched. */
  lemma OtherReady(c: Core, t: Ptr, p: nat)
    requires AtRest(c) && t in c.active && t != c.run && c.State(t) == READY
    ensures var c1 := Reprio(c, t, p);
            && Queueable(c1, RDY) && c1.Ready() != [] && c1.State(t) == READY
            && Queueable(PopReady(c1), RDY) && c1.Ready()[0] in c1.prio && c.run in c1.prio && c1.run == c.run
            && Loose(PopReady(c1).g, c1.Ready()[0]) && Loose(PopReady(c1).g, c.run)
  {
    hide Sched, Reprio, Tops, Queueable;
    var c1 := Reprio(c, t, p);
    SettledSched(c);
    ActiveIsTask(c);
    ReprioKeeps(c, {}, c.run, t, p);
    ReprioFields(c, t, p);
    StillReady(c1, t);
    PopReadyKeeps(c1, {}, c.run);
    var h := c1.Ready()[0];
    assert {} + {h} == {h};
    CanQueue(c1, {}, c.run, RDY);
    CanQueue(PopReady(c1), {h}, c.run, RDY);
    IsLoose(PopReady(c1), {h}, c.run, h);
    IsLoose(PopReady(c1), {h}, c.run, c.run);
  }

  lemma StillReady(c: Core, t: Ptr)
    requires Sched(c, {}, c.run) && t in c.g.tasks && c.Live(t) && c.State(t) == READY
    ensures c.Ready() != [] && RDY in c.g.lists && RDY in PopReady(c).g.lists
  {
    assert Placed(c, t);
  }

  /** The delay fields of a task that has no time-out may be reset. */
  lemma DelayReset(tasks: set<Ptr>, dlnk: map<Ptr, Ptr>, blnk: map<Ptr, Ptr>, delta: map<Ptr, nat>, d: seq<Delay>, t: Ptr)
    requires DelayLinked(tasks, dlnk, blnk, delta, d) && t in tasks && t !in Tasks(d)
    ensures DelayLinked(tasks, dlnk[t := NULL], blnk[t := NULL], delta[t := 0], d)
  {
    var s, delta' := Tasks(d), delta[t := 0];
    ChainSkip(dlnk, DLY, s, t, NULL);
    BackSkip(blnk, DLY, s, t, NULL);
    forall i | 0 <= i <= |d|
      ensures Before(DLY, s, i) in delta'
      ensures delta'[Before(DLY, s, i)] == if i == |d| then 0 else d[i].rem - RemBefore(d, i)
    {
      assert Before(DLY, s, i) in delta;
      assert i > 0 ==> s[i - 1] in s;
    }
  }

  lemma CanCreate(c: Core, t: Ptr, p: nat)
    requires AtRest(c) && t in c.g.tasks && !c.Live(t)
    ensures Loose(c.g, t) && t !in Tasks(c.d) && t in c.kind && c.kind[t] == RtxList.TCB
    ensures var c' := c.(g := Fresh(c.g, t), prio := c.prio[t := p]);
            Queueable(c', RDY) && Loose(c'.g, t) && Loose(c'.g, c.run)
  {
    hide Sorted, InOrder;
    assert Placed(c, t);
    RestFacts(c);
  }

  lemma WakeFacts(c: Core, cur: Ptr, h: Ptr)
    requires Sched(c, {}, cur) && h in c.g.lists && h != RDY && c.g.lists[h] != []
    ensures Queueable(c, h)
    ensures var t, c1 := c.g.lists[h][0], WakeFirst(c, h);
            && Queueable(c1, RDY) && Loose(c1.g, t) && t in c.prio && t != cur && (cur != NULL ==> Loose(c1.g, cur))
            && (cur != NULL ==> cur in c.prio)
  {
    hide Sched, WakeFirst, Queueable, TaskLists.Loose;
    var t, c1 := c.g.lists[h][0], WakeFirst(c, h);
    CanQueue(c, {}, cur, h);
    WakeFirstKeeps(c, {}, cur, h);
    assert {} + {t} == {t};
    WakePrio(c, h);
    SchedHeads(c1, {t}, cur);
    CanQueue(c1, {t}, cur, RDY);
    IsLoose(c1, {t}, cur, t);
    if cur != NULL {
      IsLoose(c1, {t}, cur, cur);
    }
  }

  lemma WakePrio(c: Core, h: Ptr)
    requires c.List(h) != []
    ensures WakeFirst(c, h).prio == c.prio && WakeFirst(c, h).run == c.run
  {
  }

  lemma WakeReadyKeeps(c: Core, cur: Ptr, h: Ptr)
    requires Sched(c, {}, cur) && h in c.g.lists && c.g.lists[h] != []
    ensures Sched(ToReady(WakeFirst(c, h), c.g.lists[h][0]), {}, cur)
  {
    hide Sched, WakeFirst, ToReady;
    var t := c.g.lists[h][0];
    WakeFirstKeeps(c, {}, cur, h);
    assert {} + {t} == {t} && {t} - {t} == {};
    ToReadyKeeps(WakeFirst(c, h), {t}, cur, t);
  }

  /** One pass of the loop that wakes every waiter of h. */
  lemma WokenList(c: Core, ret: map<Ptr, Ret>, h: Ptr, r: Ret)
    requires h in c.g.lists && c.g.lists[h] != [] && h != RDY
    ensures var c' := ToReady(WakeFirst(c, h), c.g.lists[h][0]);
            && h in c'.g.lists && c'.g.lists[h] == c.g.lists[h][1..] && c'.run == c.run
            && RtxSched.WakeAll(c', h) == RtxSched.WakeAll(c, h)
            && RetAll(ret[c.g.lists[h][0] := r], c'.g.lists[h], r) == RetAll(ret, c.g.lists[h], r)
  {
  }

  lemma NoneLeft(c: Core, ret: map<Ptr, Ret>, h: Ptr, r: Ret)
    requires h in c.g.lists && c.g.lists[h] == []
    ensures RtxSched.WakeAll(c, h) == c && RetAll(ret, c.g.lists[h], r) == ret
  {
  }

  lemma SemaphoreAt(k: KState, h: Ptr)
    requires Objects(k) && IsObject(k, h, RtxList.SCB)
    ensures h in k.tokens && k.tokens[h] < 0x1_0000 && (k.List(h) != [] ==> k.tokens[h] == 0)
  {
    assert ObjectOk(k, h);
  }

  lemma RunFlags(k: KState)
    requires KInv(k)
    ensures k.c.run in k.events && k.c.run in k.waits
  {
    hide AtRest, Objects;
    RestFacts(k.c);
    FlagsIn(k, k.c.run);
  }

  lemma FlagsIn(k: KState, t: Ptr)
    requires Objects(k) && t in k.c.g.tasks
    ensures t in k.events && t in k.waits
  {
    assert FlagsOk(k, t);
  }

  lemma Overwrite<V>(m: map<Ptr, V>, t: Ptr, u: V, v: V)
    ensures m[t := u][t := v] == m[t := v]
  {
  }

  /** rt_evt_set field by field. */
  lemma SignalParts(k: KState, t: Ptr, flags: bv16)
    requires t in k.events && t in k.waits && t in k.c.state
    ensures var e, w, k' := Merge(k.events[t], flags), k.waits[t], RtxSpec.Signal(k, t, flags);
            var st := k.c.state[t];
            var woken := (st == WAIT_AND && HasAll(e, w)) || (st == WAIT_OR && HasAny(e, w));
            && Completes(k, t, flags) == woken
            && k'.events == k.events[t := if woken then Without(e, w) else e]
            && k'.waits == (if woken && st == WAIT_OR then k.waits[t := Common(w, e)] else k.waits)
            && k'.ret == (if woken then k.ret[t := Signals(if st == WAIT_OR then Common(w, e) else w)] else k.ret)
            && k' == k.(c := k.c.(d := if woken then DelayDrop(k.c.d, t) else k.c.d),
                        events := k'.events, waits := k'.waits, ret := k'.ret)
  {
    hide HasAll, HasAny, Without, Merge, Common, DelayDrop;
    assert k.waits[t := k.waits[t]] == k.waits;
  }

  /** A task that waits for events is on no list. */
  lemma CanSignal(k: KState, cur: Ptr, t: Ptr, flags: bv16)
    requires Sched(k.c, {}, cur) && t in k.c.active && Objects(k)
    ensures t in k.c.g.tasks && t in k.events && t in k.waits && t in k.c.state && t in k.c.prio && Queueable(k.c, RDY)
    ensures Completes(k, t, flags) ==> t != cur && Loose(k.c.g, t)
    ensures cur != NULL ==> cur in k.c.prio && Loose(k.c.g, cur)
  {
    hide Objects, Sorted, HasAll, HasAny;
    FlagsIn(k, t);
    SchedHeads(k.c, {}, cur);
    CanQueue(k.c, {}, cur, RDY);
    assert Placed(k.c, t);
    if cur != NULL {
      IsLoose(k.c, {}, cur, cur);
    }
  }

  lemma QueueableState(c: Core, state: map<Ptr, TaskState>)
    requires Queueable(c, RDY)
    ensures Queueable(c.(state := state), RDY)
  {
  }

  lemma SignalTouches(k: KState, t: Ptr, flags: bv16)
    ensures RtxSpec.Signal(k, t, flags).c == k.c.(d := RtxSpec.Signal(k, t, flags).c.d)
    ensures Queueable(k.c, RDY) ==> Queueable(RtxSpec.Signal(k, t, flags).c, RDY)
  {
    hide Completes, DelayDrop, Without, Common, Merge;
  }

  /** rt_dispatch overwrites the state of the task it is given. */
  lemma DispatchReady(c: Core, t: Ptr)
    requires t != c.run
    ensures Dispatch(c.(state := c.state[t := READY]), t) == Dispatch(c, t)
  {
    assert c.state[t := READY][c.run := READY][t := RUNNING] == c.state[c.run := READY][t := RUNNING];
    assert c.state[t := READY][t := READY] == c.state[t := READY];
  }

  lemma HeadKnown(c: Core)
    requires Queueable(c, RDY)
    ensures RDY in c.g.lists && (c.g.lists[RDY] != [] ==> c.g.lists[RDY][0] in c.prio)
  {
  }

  lemma StillLoose(g: Shape, prio: map<Ptr, nat>, x: Ptr, t: Ptr)
    requires Loose(g, t) && t != x
    ensures Loose(Queue(g, prio, RDY, x), t)
  {
  }

  lemma CanRotate(c: Core)
    requires Sched(c, {}, NULL) && c.Ready() != []
    ensures Queueable(c, RDY) && Queueable(PopReady(c), RDY)
    ensures Loose(PopReady(c).g, c.Ready()[0]) && c.Ready()[0] in c.prio
  {
    hide Sched, Queueable, TaskLists.Loose;
    SchedHeads(c, {}, NULL);
    CanQueue(c, {}, NULL, RDY);
    PopReadyKeeps(c, {}, NULL);
    var t := c.Ready()[0];
    assert {} + {t} == {t};
    SchedHeads(PopReady(c), {t}, NULL);
    CanQueue(PopReady(c), {t}, NULL, RDY);
    IsLoose(PopReady(c), {t}, NULL, t);
  }

  /** The scheduler state at start-up. */
  ghost function Boot(idle: Ptr, tasks: set<Ptr>, objects: set<Ptr>): (c: Core) {
    Core(Shape(tasks, map h | h in objects + {RDY} :: [], map t | t in tasks :: NULL, {}), [], idle, {},
         map x | x in tasks + objects + {RDY} :: if x == RDY then RtxList.HCB else RtxList.TCB,
         map t | t in tasks :: 0,
         map t | t in tasks :: if t == idle then RUNNING else INACTIVE, idle, idle)
  }

  lemma BootLinked(idle: Ptr, tasks: set<Ptr>, objects: set<Ptr>)
    requires idle in tasks && tasks !! objects && {NULL, RDY, DLY} !! tasks + objects
    ensures Linked(Boot(idle, tasks, objects).g, map x | x in tasks + objects + {RDY} :: NULL, map t | t in tasks :: NULL)
    ensures DelayLinked(tasks, map t | t in tasks + {DLY} :: NULL, map t | t in tasks :: NULL, map t | t in tasks + {DLY} :: 0, [])
    ensures DelayOk([])
  {
  }

  /** Start-up satisfies the scheduling invariant. */
  lemma BootRests(idle: Ptr, tasks: set<Ptr>, objects: set<Ptr>)
    requires idle in tasks && tasks !! objects && {NULL, RDY, DLY} !! tasks + objects
    ensures AtRest(Boot(idle, tasks, objects))
  {
    var c := Boot(idle, tasks, objects);
    forall t | t in tasks
      ensures Placed(c, t)
    {
      assert c.State(t) == if t == idle then RUNNING else INACTIVE;
    }
  }
}
