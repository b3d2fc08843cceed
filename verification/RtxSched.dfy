/** rt_Task.c on values: the scheduler's part of the kernel state. */
module RtxSched {
  import opened Links
  import opened TaskLists
  import opened RtxOrder
  import opened Delays
  import opened RtxList

  datatype TaskState =
    | INACTIVE | READY | RUNNING
    | WAIT_DLY | WAIT_OR | WAIT_AND | WAIT_SEM | WAIT_MBX | WAIT_MUT

  /** Lists, priorities and task states. */
  datatype Core = Core(
    g: Shape,                     // ready list and wait lists
    d: seq<Delay>,                // delay list
    idle: Ptr,
    active: set<Ptr>,             // os_active_TCB
    kind: map<Ptr, Kind>,
    prio: map<Ptr, nat>,
    state: map<Ptr, TaskState>,
    run: Ptr,                     // os_tsk.run
    next: Ptr)                    // os_tsk.new_tsk
  {
    ghost function List(h: Ptr): (s: seq<Ptr>) {
      At(g.lists, h, [])
    }

    ghost function Ready(): (s: seq<Ptr>) {
      List(RDY)
    }

    function Prio(t: Ptr): (p: nat) {
      At(prio, t, 0)
    }

    function State(t: Ptr): (s: TaskState) {
      At(state, t, INACTIVE)
    }

    /** Tasks the scheduler knows: the active ones and the idle task. */
    predicate Live(t: Ptr) {
      t in active || t == idle
    }
  }

  /** t becomes READY in front of the i-th ready task. */
  ghost function ReadyAt(c: Core, i: nat, t: Ptr): (r: Core)
    requires i <= |c.Ready()|
  {
    c.(g := Put(c.g, RDY, i, t), state := c.state[t := READY])
  }

  /** t becomes READY behind the ready tasks of its priority. */
  ghost function ToReady(c: Core, t: Ptr): (r: Core) {
    ReadyAt(c, InsertPos(c.prio, c.Ready(), c.Prio(t)), t)
  }

  /** rt_switch_req */
  ghost function Switch(c: Core, t: Ptr): (r: Core) {
    c.(next := t, state := c.state[t := RUNNING])
  }

  ghost function PopReady(c: Core): (r: Core) {
    c.(g := Pop(c.g, RDY))
  }

  /** rt_dispatch(NULL): the first ready task runs. The ready list is never empty here. */
  ghost function DispatchNext(c: Core): (r: Core) {
    if c.Ready() == [] then c else Switch(PopReady(c), c.Ready()[0])
  }

  /** rt_dispatch(t): t preempts the running task or becomes ready. */
  ghost function Dispatch(c: Core, t: Ptr): (r: Core) {
    if c.Prio(t) > c.Prio(c.run) then Switch(ReadyAt(c, 0, c.run), t) else ToReady(c, t)
  }

  /** A higher-priority ready task takes over from the running task. */
  ghost function PreemptCheck(c: Core): (r: Core) {
    if c.Ready() != [] && c.Prio(c.Ready()[0]) > c.Prio(c.run) then DispatchNext(ToReady(c, c.run)) else c
  }

  /** The running task queues on object h. */
  ghost function QueueRun(c: Core, h: Ptr): (r: Core) {
    c.(g := Queue(c.g, c.prio, h, c.run))
  }

  /** rt_block: the running task waits in state st for n ticks at most; n of 0xffff is for ever. */
  ghost function Block(c: Core, n: nat, st: TaskState): (r: Core) {
    if n == 0 then c
    else
      var d := if n < NO_TIMEOUT then DelayPut(c.d, c.run, n) else c.d;
      DispatchNext(c.(d := d, state := c.state[c.run := st]))
  }

  /** The first waiter of h leaves the list and the delay list. */
  ghost function WakeFirst(c: Core, h: Ptr): (r: Core)
    requires c.List(h) != []
  {
    c.(g := Pop(c.g, h), d := DelayDrop(c.d, c.List(h)[0]))
  }

  /** Every waiter of h becomes ready. */
  ghost function WakeAll(c: Core, h: Ptr): (r: Core)
    decreases |c.List(h)|
  {
    if h == RDY || c.List(h) == [] then c else WakeAll(ToReady(WakeFirst(c, h), c.List(h)[0]), h)
  }

  /** Change of priority with the re-sorting of rt_resort_prio. */
  ghost function Reprio(c: Core, t: Ptr, p: nat): (r: Core) {
    var c' := c.(prio := c.prio[t := p]);
    if OnList(c.g, t) then c'.(g := Queue(Unlink(c.g, t), c'.prio, c.g.on[t], t)) else c'
  }

  /** The end of rt_mut_release: t has got the mutex and competes with the releasing task, whose priority may have dropped. */
  ghost function HandTo(c: Core, t: Ptr): (r: Core) {
    if c.Ready() != [] && c.Prio(c.run) < c.Prio(c.Ready()[0])
    then DispatchNext(ToReady(ToReady(c, c.run), t))
    else Dispatch(c, t)
  }

  /** rt_tsk_pass */
  ghost function TskPass(c: Core): (r: Core) {
    if c.Ready() != [] && c.Prio(c.Ready()[0]) == c.Prio(c.run)
    then Switch(ToReady(PopReady(c), c.run), c.Ready()[0])
    else c
  }

  /** rt_tsk_prio; t is NULL for the caller. */
  ghost function TskPrio(c: Core, t: Ptr, p: nat): (r: Core) {
    if t == NULL || (t in c.active && t == c.run) then PreemptCheck(Reprio(c, c.run, p))
    else if t !in c.active then c
    else
      var c1 := Reprio(c, t, p);
      if c1.State(t) == READY && c1.Ready() != [] then Dispatch(PopReady(c1), c1.Ready()[0]) else c1
  }

  /** rt_tsk_delete; t is NULL for the caller. */
  ghost function TskDelete(c: Core, t: Ptr): (r: Core) {
    if t == NULL || t == c.run
    then DispatchNext(c.(active := c.active - {c.run}, state := c.state[c.run := INACTIVE]))
    else if t !in c.active then c
    else c.(g := Unlink(c.g, t), d := DelayDrop(c.d, t), active := c.active - {t})
  }

  /** rt_init_context and rt_dispatch, as in svcThreadCreate. */
  ghost function TskCreate(c: Core, t: Ptr, p: nat): (r: Core) {
    Dispatch(c.(g := Fresh(c.g, t), active := c.active + {t}, prio := c.prio[t := p], state := c.state[t := READY]), t)
  }

  /** t, whose time is up, leaves the delay list and the list it waits on, and becomes ready. */
  ghost function TimeUp(c: Core): (r: Core)
    requires c.d != []
  {
    ToReady(c.(g := Unlink(c.g, c.d[0].task), d := c.d[1..]), c.d[0].task)
  }

  /** The release loop of rt_dec_dly: the tasks with one tick left become ready. */
  ghost function Expire(c: Core): (r: Core)
    decreases |c.d|
  {
    if c.d == [] || c.d[0].rem != 1 then c else Expire(TimeUp(c))
  }

  /** rt_dec_dly: one tick passes. */
  ghost function DecDly(c: Core): (r: Core) {
    var c1 := Expire(c);
    c1.(d := Age(c1.d))
  }
}

/** What every scheduler operation keeps: list order, and list membership by task state. */
module RtxPlaces {
  import opened Links
  import opened TaskLists
  import opened RtxOrder
  import opened Delays
  import opened RtxList
  import opened RtxSched

  /** Every field exists where the scheduler reads it. */
  ghost predicate Fields(c: Core) {
    && c.idle in c.g.tasks && c.idle !in c.active && c.active <= c.g.tasks
    && (forall t :: t in c.g.tasks ==> t in c.prio && t in c.state)
  }

  /** Every list is in priority order. */
  ghost predicate Ordered(c: Core) {
    forall h :: h in c.g.lists ==> Sorted(c.prio, c.g.lists[h])
  }

  ghost predicate Delayed(c: Core, t: Ptr) {
    t in Tasks(c.d)
  }

  /** A task between two lists: known to the scheduler, on no list, without a time-out. */
  ghost predicate InHand(c: Core, t: Ptr) {
    c.Live(t) && At(c.g.on, t, NULL) == NULL && !Delayed(c, t)
  }

  /** Where a task is follows from its state: h is the list it is on, of an object of type ty. */
  ghost predicate PlaceOk(live: bool, st: TaskState, h: Ptr, ty: Kind, delayed: bool) {
    if !live then h == NULL && !delayed
    else
      match st
      case RUNNING => h == NULL && !delayed
      case READY => h == RDY && !delayed
      case WAIT_SEM => h != NULL && h != RDY && ty == SCB
      case WAIT_MBX => h != NULL && h != RDY && ty == MCB
      case WAIT_MUT => h != NULL && h != RDY && ty == MUCB
      case INACTIVE => false
      case _ => h == NULL
  }

  ghost predicate Placed(c: Core, t: Ptr) {
    var h := At(c.g.on, t, NULL);
    PlaceOk(c.Live(t), c.State(t), h, At(c.kind, h, TCB), Delayed(c, t))
  }

  /** All tasks but those in hand are where their state says, and cur alone is RUNNING. */
  ghost predicate Places(c: Core, hands: set<Ptr>, cur: Ptr) {
    && hands <= c.g.tasks && cur !in hands
    && (cur != NULL ==> cur in c.g.tasks && c.Live(cur) && c.State(cur) == RUNNING)
    && (forall t :: t in c.g.tasks ==> if t in hands then InHand(c, t) else Placed(c, t))
    && (forall t :: t in c.g.tasks && t !in hands && c.Live(t) && c.State(t) == RUNNING ==> t == cur)
    && (forall t :: t in c.g.stale ==> !c.Live(t))
    && (c.idle in hands || c.State(c.idle) == READY || c.State(c.idle) == RUNNING)
    && (forall i :: 0 <= i < |c.d| ==> c.d[i].task in c.g.tasks)
  }

  ghost predicate Sched(c: Core, hands: set<Ptr>, cur: Ptr) {
    && Separate(c.g) && Typed(c.g, c.kind) && Fields(c) && DelayOk(c.d)
    && Ordered(c)
    && Places(c, hands, cur)
  }

  lemma PlacesReady(c: Core, hands: set<Ptr>, cur: Ptr, t: Ptr, i: nat)
    requires Places(c, hands, cur) && t in hands && i <= |c.Ready()|
    ensures Places(ReadyAt(c, i, t), hands - {t}, cur)
  {
    var c' := ReadyAt(c, i, t);
    assert InHand(c, t);
    forall x | x in c.g.tasks && x != t
      ensures if x in hands then InHand(c', x) else Placed(c', x)
    {
      assert if x in hands then InHand(c, x) else Placed(c, x);
    }
  }

  lemma ReadyAtKeeps(c: Core, hands: set<Ptr>, cur: Ptr, t: Ptr, i: nat)
    requires Sched(c, hands, cur) && t in hands && i <= |c.Ready()|
    requires Sorted(c.prio, Ins(c.Ready(), i, t))
    ensures Sched(ReadyAt(c, i, t), hands - {t}, cur)
  {
    hide Sorted, Placed;
    assert InHand(c, t);
    SeparatePut(c.g, RDY, i, t);
    PlacesReady(c, hands, cur, t, i);
  }

  lemma ToReadyKeeps(c: Core, hands: set<Ptr>, cur: Ptr, t: Ptr)
    requires Sched(c, hands, cur) && t in hands
    ensures Sched(ToReady(c, t), hands - {t}, cur)
  {
    hide Places;
    EnterSorted(c.prio, c.Ready(), t);
    ReadyAtKeeps(c, hands, cur, t, InsertPos(c.prio, c.Ready(), c.Prio(t)));
  }

  /** The running task becomes a task in hand. */
  lemma RunInHand(c: Core, hands: set<Ptr>, cur: Ptr)
    requires Sched(c, hands, cur) && cur != NULL
    ensures Sched(c, hands + {cur}, NULL)
  {
  }

  lemma SwitchKeeps(c: Core, hands: set<Ptr>, t: Ptr)
    requires Sched(c, hands, NULL) && t in hands
    ensures Sched(Switch(c, t), hands - {t}, t)
  {
    hide Sorted;
    assert InHand(c, t);
    var c' := Switch(c, t);
    forall x | x in c.g.tasks && x != t
      ensures if x in hands then InHand(c', x) else Placed(c', x)
    {
      assert if x in hands then InHand(c, x) else Placed(c, x);
    }
  }

  /** Taking the first task of list h and its time-out. */
  lemma PlacesPop(c: Core, hands: set<Ptr>, cur: Ptr, h: Ptr)
    requires Places(c, hands, cur) && Separate(c.g) && h in c.g.lists && c.g.lists[h] != [] && DelayOk(c.d)
    requires Typed(c.g, c.kind)
    ensures var t := c.g.lists[h][0];
            t in c.g.tasks && t !in hands && t != cur && c.Live(t) && Places(WakeFirst(c, h), hands + {t}, cur)
  {
    var t, c' := c.g.lists[h][0], WakeFirst(c, h);
    assert c.g.on[t] == h && Placed(c, t);
    DropTasks(c.d, t);
    DropWithin(c.d, t);
    forall x | x in c.g.tasks && x != t
      ensures if x in hands then InHand(c', x) else Placed(c', x)
    {
      assert if x in hands then InHand(c, x) else Placed(c, x);
    }
  }

  lemma DropWithin(d: seq<Delay>, t: Ptr)
    ensures forall i :: 0 <= i < |DelayDrop(d, t)| ==> DelayDrop(d, t)[i] in d
  {
  }

  lemma WakeFirstKeeps(c: Core, hands: set<Ptr>, cur: Ptr, h: Ptr)
    requires Sched(c, hands, cur) && h in c.g.lists && c.g.lists[h] != []
    ensures var t := c.g.lists[h][0];
            t in c.g.tasks && t !in hands && t != cur && c.Live(t) && Sched(WakeFirst(c, h), hands + {t}, cur)
  {
    hide Places, InOrder, DelayDrop;
    SeparatePop(c.g, h);
    PlacesPop(c, hands, cur, h);
    DropKeepsOthers(c.d, c.g.lists[h][0]);
    assert c.g.lists[h] == [c.g.lists[h][0]] + c.g.lists[h][1..];
    assert Sorted(c.prio, c.g.lists[h][1..]);
  }

  lemma PopReadyKeeps(c: Core, hands: set<Ptr>, cur: Ptr)
    requires Sched(c, hands, cur) && c.Ready() != []
    ensures var t := c.Ready()[0];
            t in c.g.tasks && t !in hands && t != cur && c.Live(t) && Sched(PopReady(c), hands + {t}, cur)
  {
    hide Sorted, InOrder;
    WakeFirstKeeps(c, hands, cur, RDY);
    var t := c.Ready()[0];
    assert c.g.on[t] == RDY && Placed(c, t);
    assert WakeFirst(c, RDY) == PopReady(c);
  }

  /** With the idle task neither in hand nor running, some task is ready. */
  lemma IdleReady(c: Core, hands: set<Ptr>, cur: Ptr)
    requires Sched(c, hands, cur) && c.idle !in hands && c.idle != cur
    ensures c.Ready() != []
  {
    assert Placed(c, c.idle);
  }

  /** Tasks on the list of an object wait in the state of that object's type. */
  predicate WaitsIn(st: TaskState, ty: Kind) {
    (st == WAIT_SEM && ty == SCB) || (st == WAIT_MBX && ty == MCB) || (st == WAIT_MUT && ty == MUCB)
  }

  lemma PlacesWait(c: Core, hands: set<Ptr>, cur: Ptr, t: Ptr, h: Ptr, i: nat, st: TaskState)
    requires Places(c, hands, cur) && t in hands && t != c.idle && h != RDY && h != NULL
    requires i <= |c.List(h)| && WaitsIn(st, At(c.kind, h, TCB))
    ensures Places(c.(g := Put(c.g, h, i, t), state := c.state[t := st]), hands - {t}, cur)
  {
    hide InHand, Placed, Ins;
    var c' := c.(g := Put(c.g, h, i, t), state := c.state[t := st]);
    assert InHand(c, t);
    PutPlaced(c, t, h, i, st);
    forall x | x in c.g.tasks && x != t
      ensures if x in hands then InHand(c', x) else Placed(c', x)
    {
      assert if x in hands then InHand(c, x) else Placed(c, x);
      PutOther(c, t, h, i, st, x);
    }
  }

  lemma PutPlaced(c: Core, t: Ptr, h: Ptr, i: nat, st: TaskState)
    requires InHand(c, t) && t != c.idle && h != RDY && h != NULL && i <= |c.List(h)| && WaitsIn(st, At(c.kind, h, TCB))
    ensures Placed(c.(g := Put(c.g, h, i, t), state := c.state[t := st]), t)
    ensures Put(c.g, h, i, t).tasks == c.g.tasks && c.Live(t)
  {
  }

  lemma PutOther(c: Core, t: Ptr, h: Ptr, i: nat, st: TaskState, x: Ptr)
    requires x != t && i <= |c.List(h)|
    ensures var c' := c.(g := Put(c.g, h, i, t), state := c.state[t := st]);
            (InHand(c, x) ==> InHand(c', x)) && (Placed(c, x) ==> Placed(c', x))
  {
  }

  /** A task in hand starts to wait for object h. */
  lemma WaitKeeps(c: Core, hands: set<Ptr>, cur: Ptr, t: Ptr, h: Ptr, st: TaskState)
    requires Sched(c, hands, cur) && t in hands && t != c.idle && h in c.g.lists && h != RDY
    requires WaitsIn(st, c.kind[h])
    ensures Sched(c.(g := Queue(c.g, c.prio, h, t), state := c.state[t := st]), hands - {t}, cur)
  {
    hide Sorted, Placed;
    var i := InsertPos(c.prio, c.g.lists[h], c.Prio(t));
    assert InHand(c, t);
    SeparatePut(c.g, h, i, t);
    EnterSorted(c.prio, c.g.lists[h], t);
    PlacesWait(c, hands, cur, t, h, i, st);
  }

  /** A task in hand starts to wait for its event flags or for time to pass. */
  lemma SleepKeeps(c: Core, hands: set<Ptr>, cur: Ptr, t: Ptr, st: TaskState)
    requires Sched(c, hands, cur) && t in hands && t != c.idle
    requires st == WAIT_DLY || st == WAIT_OR || st == WAIT_AND
    ensures Sched(c.(state := c.state[t := st]), hands - {t}, cur)
  {
    hide Sorted;
    var c' := c.(state := c.state[t := st]);
    assert InHand(c, t);
    forall x | x in c.g.tasks && x != t
      ensures if x in hands then InHand(c', x) else Placed(c', x)
    {
      assert if x in hands then InHand(c, x) else Placed(c, x);
    }
  }

  predicate IsWaiting(st: TaskState) {
    st != INACTIVE && st != READY && st != RUNNING
  }

  /** A waiting task gets a time-out. */
  lemma TimeoutKeeps(c: Core, hands: set<Ptr>, cur: Ptr, t: Ptr, n: nat)
    requires Sched(c, hands, cur) && t in c.g.tasks && t !in hands && c.Live(t)
    requires !Delayed(c, t) && IsWaiting(c.State(t)) && 1 <= n < NO_TIMEOUT
    ensures Sched(c.(d := DelayPut(c.d, t, n)), hands, cur)
  {
    hide Sorted, InOrder;
    PutKeepsOthers(c.d, t, n);
    PutTasks(c.d, t, n);
    var c' := c.(d := DelayPut(c.d, t, n));
    forall i | 0 <= i < |c'.d|
      ensures c'.d[i].task in c.g.tasks
    {
      InsMembers(c.d, DelayPos(c.d, n), Delay(t, n));
    }
    forall x | x in c.g.tasks
      ensures if x in hands then InHand(c', x) else Placed(c', x)
    {
      assert if x in hands then InHand(c, x) else Placed(c, x);
    }
  }

  lemma SortedSkip(prio: map<Ptr, nat>, s: seq<Ptr>, t: Ptr, p: nat)
    requires Sorted(prio, s) && t !in s
    ensures Sorted(prio[t := p], s)
  {
    assert forall i :: 0 <= i < |s| ==> s[i] in s;
  }

  lemma SortedDel(prio: map<Ptr, nat>, s: seq<Ptr>, i: nat)
    requires Sorted(prio, s) && i < |s|
    ensures Sorted(prio, Del(s, i))
  {
    var r := Del(s, i);
    assert forall j :: 0 <= j < |r| ==> r[j] == s[if j < i then j else j + 1];
  }

  /** t unlinked from list h and queued on list h' with priority p. */
  lemma OrderedMove(c: Core, t: Ptr, p: nat, h': Ptr)
    requires Separate(c.g) && Ordered(c) && t in c.g.tasks && h' in c.g.lists
    ensures Ordered(c.(prio := c.prio[t := p], g := Queue(Unlink(c.g, t), c.prio[t := p], h', t)))
  {
    var prio', g1 := c.prio[t := p], Unlink(c.g, t);
    assert OnList(c.g, t) || c.g.on[t] == NULL;
    forall h | h in c.g.lists
      ensures Sorted(prio', g1.lists[h])
    {
      if h == c.g.on[t] {
        var i := Index(c.g.lists[h], t);
        SortedDel(c.prio, c.g.lists[h], i);
        DelMembers(c.g.lists[h], i);
      }
      SortedSkip(c.prio, g1.lists[h], t, p);
    }
    EnterSorted(prio', g1.lists[h'], t);
  }

  lemma SeparateUnlink(g: Shape, t: Ptr)
    requires Separate(g) && t in g.tasks
    ensures var g' := Unlink(g, t);
            && Separate(g') && g'.on == g.on[t := NULL] && g'.tasks == g.tasks && g'.lists.Keys == g.lists.Keys
            && g'.stale == (if g.on[t] == NULL then g.stale else g.stale + {t})
            && forall h :: h in g.lists && g.lists[h] == [] ==> g'.lists[h] == []
  {
    assert OnList(g, t) || g.on[t] == NULL;
    if OnList(g, t) {
      SeparateCut(g, g.on[t], Index(g.lists[g.on[t]], t));
    }
  }

  /** A task moved from the list it is on to list h'. */
  lemma SeparateMove(g: Shape, prio: map<Ptr, nat>, t: Ptr, h': Ptr)
    requires Separate(g) && t in g.tasks && t !in g.stale && h' in g.lists
    ensures var g' := Queue(Unlink(g, t), prio, h', t);
            && Separate(g') && g'.on == g.on[t := h'] && g'.stale == g.stale && g'.tasks == g.tasks
            && g'.lists.Keys == g.lists.Keys
            && forall h :: h in g.lists && h != h' && g.lists[h] == [] ==> g'.lists[h] == []
  {
    hide NoDup, Unlink, Ins;
    var g1 := Unlink(g, t);
    SeparateUnlink(g, t);
    SeparatePut(g1, h', InsertPos(prio, g1.lists[h'], At(prio, t, 0)), t);
    assert g.stale + {t} - {t} == g.stale && g.stale - {t} == g.stale;
  }

  lemma TypedMove(g: Shape, g': Shape, kind: map<Ptr, Kind>, h': Ptr)
    requires Typed(g, kind) && g'.tasks == g.tasks && g'.lists.Keys == g.lists.Keys
    requires h' in g.lists && (h' == RDY || g.lists[h'] != [])
    requires forall h :: h in g.lists && h != h' && g.lists[h] == [] ==> g'.lists[h] == []
    ensures Typed(g', kind)
  {
    assert forall h :: h in g'.lists <==> h in g.lists;
  }

  /** A change of priority keeps every list in order: the task moves within the list it is on. */
  lemma ReprioKeeps(c: Core, hands: set<Ptr>, cur: Ptr, t: Ptr, p: nat)
    requires Sched(c, hands, cur) && t in c.g.tasks && c.Live(t)
    ensures Sched(Reprio(c, t, p), hands, cur)
  {
    hide Sorted, InOrder, Separate, Places, Typed, Unlink, Queue;
    var c' := Reprio(c, t, p);
    OnListOrLoose(c, hands, cur, t);
    if OnList(c.g, t) {
      var h := c.g.on[t];
      OrderedMove(c, t, p, h);
      SeparateMove(c.g, c.prio[t := p], t, h);
      TypedMove(c.g, c'.g, c.kind, h);
      assert c'.g.on == c.g.on;
    } else {
      forall h | h in c.g.lists
        ensures Sorted(c'.prio, c.g.lists[h])
      {
        SortedSkip(c.prio, c.g.lists[h], t, p);
      }
    }
    PlacesSame(c, c', hands, cur);
  }

  lemma OnListOrLoose(c: Core, hands: set<Ptr>, cur: Ptr, t: Ptr)
    requires Sched(c, hands, cur) && t in c.g.tasks && c.Live(t)
    ensures t !in c.g.stale && t in c.g.on && RDY in c.g.lists
    ensures OnList(c.g, t) <==> c.g.on[t] != NULL
    ensures !OnList(c.g, t) ==> forall h :: h in c.g.lists ==> t !in c.g.lists[h]
  {
  }

  /** Places depends on links, states and time-outs only. */
  lemma PlacesSame(c: Core, c': Core, hands: set<Ptr>, cur: Ptr)
    requires Places(c, hands, cur)
    requires c'.g.tasks == c.g.tasks && c'.g.on == c.g.on && c'.g.stale == c.g.stale
    requires c'.d == c.d && c'.active == c.active && c'.idle == c.idle && c'.kind == c.kind && c'.state == c.state
    ensures Places(c', hands, cur)
  {
    forall x | x in c.g.tasks
      ensures if x in hands then InHand(c', x) else Placed(c', x)
    {
      assert if x in hands then InHand(c, x) else Placed(c, x);
    }
  }

  lemma PlacesTimeUp(c: Core, hands: set<Ptr>, cur: Ptr, c': Core)
    requires Places(c, hands, cur) && c.d != [] && NoDup(Tasks(c.d))
    requires var t := c.d[0].task;
             && c'.g.tasks == c.g.tasks && c'.g.on == c.g.on[t := RDY] && c'.g.stale == c.g.stale
             && c'.d == c.d[1..] && c'.active == c.active && c'.idle == c.idle && c'.kind == c.kind
             && c'.state == c.state[t := READY]
    ensures Places(c', hands, cur)
  {
    var t := c.d[0].task;
    assert Tasks(c.d) == [t] + Tasks(c'.d);
    assert t in Tasks(c.d);
    forall x | x in c.g.tasks && x != t
      ensures if x in hands then InHand(c', x) else Placed(c', x)
    {
      assert if x in hands then InHand(c, x) else Placed(c, x);
    }
    assert if t in hands then InHand(c, t) else Placed(c, t);
  }

  lemma TimeUpKeeps(c: Core, hands: set<Ptr>, cur: Ptr)
    requires Sched(c, hands, cur) && c.d != []
    ensures Sched(TimeUp(c), hands, cur)
  {
    hide Sorted, Separate, Typed, Unlink, Ins, Placed;
    var t, c' := c.d[0].task, TimeUp(c);
    DelayedLive(c, hands, cur, 0);
    OnListOrLoose(c, hands, cur, t);
    assert c.prio[t := c.prio[t]] == c.prio;
    OrderedMove(c, t, c.prio[t], RDY);
    SeparateMove(c.g, c.prio, t, RDY);
    TypedMove(c.g, c'.g, c.kind, RDY);
    PlacesTimeUp(c, hands, cur, c');
    DelayTail(c.d);
  }

  lemma DelayTail(d: seq<Delay>)
    requires DelayOk(d) && d != []
    ensures DelayOk(d[1..])
  {
    assert Tasks(d) == [d[0].task] + Tasks(d[1..]);
  }

  /** Only live, waiting tasks are on the delay list. */
  lemma DelayedLive(c: Core, hands: set<Ptr>, cur: Ptr, i: nat)
    requires Sched(c, hands, cur) && i < |c.d|
    ensures var t := c.d[i].task;
            t in c.g.tasks && t !in hands && t != cur && t != c.idle && c.Live(t) && IsWaiting(c.State(t))
  {
    var t := c.d[i].task;
    assert Tasks(c.d)[i] == t;
    assert if t in hands then InHand(c, t) else Placed(c, t);
  }
}
