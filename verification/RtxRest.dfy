/** The scheduling invariant between kernel calls, kept by every scheduler operation. */
module RtxRest {
  import opened Links
  import opened TaskLists
  import opened RtxOrder
  import opened Delays
  import opened RtxList
  import opened RtxSched
  import opened RtxPlaces

  /** No ready task has a higher priority than t. */
  ghost predicate Tops(c: Core, t: Ptr) {
    c.Ready() != [] ==> c.Prio(t) >= c.Prio(c.Ready()[0])
  }

  /** After a call, before the context switch: the chosen task runs and tops the ready list. */
  ghost predicate Settled(c: Core) {
    Sched(c, {}, c.next) && c.next != NULL && Tops(c, c.next)
  }

  /** Between calls. */
  ghost predicate AtRest(c: Core) {
    Settled(c) && c.run == c.next
  }

  ghost function Commit(c: Core): (r: Core) {
    c.(run := c.next)
  }

  lemma CommitRests(c: Core)
    requires Settled(c)
    ensures AtRest(Commit(c))
  {
    hide Sorted, InOrder;
    PlacesSame(c, Commit(c), {}, c.next);
  }

  /** The running task has the highest priority among all that can run. */
  lemma RunningIsHighest(c: Core, t: Ptr)
    requires AtRest(c) && t in c.g.tasks && c.Live(t) && (c.State(t) == READY || c.State(t) == RUNNING)
    ensures c.Prio(c.run) >= c.Prio(t)
  {
    assert Placed(c, t);
    if c.State(t) == READY {
      var i := Index(c.Ready(), t);
      assert c.Ready()[i] == t;
    }
  }

  /** Each READY task is on the ready list exactly once, and nothing else is. */
  lemma ReadyListIsReadyTasks(c: Core, t: Ptr)
    requires AtRest(c) && t in c.g.tasks
    ensures t in c.Ready() <==> c.Live(t) && c.State(t) == READY
    ensures NoDup(c.Ready()) && Sorted(c.prio, c.Ready())
  {
    assert Placed(c, t);
  }

  lemma DispatchNextSettles(c: Core)
    requires Sched(c, {}, NULL) && c.Ready() != []
    ensures Settled(DispatchNext(c))
  {
    hide Places, Separate, InOrder, Typed;
    var s, t := c.Ready(), c.Ready()[0];
    PopReadyKeeps(c, {}, NULL);
    assert {} + {t} == {t} && {t} - {t} == {};
    SwitchKeeps(PopReady(c), {t}, t);
    SchedHeads(c, {}, NULL);
    assert PopReady(c).Ready() == s[1..];
    assert |s| > 1 ==> At(c.prio, s[0], 0) >= At(c.prio, s[1], 0);
  }

  lemma SchedHeads(c: Core, hands: set<Ptr>, cur: Ptr)
    requires Sched(c, hands, cur)
    ensures RDY in c.g.lists && NULL !in c.g.tasks && NULL !in c.g.lists
  {
  }

  lemma DispatchSettles(c: Core, t: Ptr)
    requires Sched(c, {t}, c.run) && c.run != NULL && c.next == c.run && Tops(c, c.run)
    ensures Settled(Dispatch(c, t))
  {
    hide Places, Separate, InOrder, Typed;
    var s, run := c.Ready(), c.run;
    SchedHeads(c, {t}, run);
    InHands(c, {t}, run, t);
    if c.Prio(t) > c.Prio(run) {
      RunInHand(c, {t}, run);
      FrontSorted(c.prio, s, run);
      ReadyAtKeeps(c, {t} + {run}, NULL, run, 0);
      assert {t} + {run} - {run} == {t};
      var c1 := ReadyAt(c, 0, run);
      SwitchKeeps(c1, {t}, t);
      assert {t} - {t} == {};
      assert Switch(c1, t).Ready() == [run] + s;
    } else {
      ToReadyKeeps(c, {t}, run, t);
      assert {t} - {t} == {};
      var s' := ToReady(c, t).Ready();
      assert s' == Enter(c.prio, s, t);
      assert s'[0] == t || (s != [] && s'[0] == s[0]);
    }
  }

  lemma InHands(c: Core, hands: set<Ptr>, cur: Ptr, t: Ptr)
    requires Sched(c, hands, cur) && t in hands
    ensures t in c.g.tasks && t != cur && c.Live(t) && At(c.g.on, t, NULL) == NULL && !Delayed(c, t)
  {
  }

  lemma FrontSorted(prio: map<Ptr, nat>, s: seq<Ptr>, t: Ptr)
    requires Sorted(prio, s) && (s != [] ==> At(prio, t, 0) >= At(prio, s[0], 0))
    ensures Sorted(prio, Ins(s, 0, t))
  {
    assert Ins(s, 0, t) == [t] + s;
  }

  /** The running task becomes ready and the first ready task runs. */
  lemma YieldSettles(c: Core)
    requires Sched(c, {}, c.run) && c.run != NULL
    ensures Settled(DispatchNext(ToReady(c, c.run)))
  {
    hide Places, Separate, InOrder, Typed, Sorted, Settled;
    var run := c.run;
    RunInHand(c, {}, run);
    assert {} + {run} == {run} && {run} - {run} == {};
    ToReadyKeeps(c, {run}, NULL, run);
    SchedHeads(c, {}, run);
    DispatchNextSettles(ToReady(c, run));
  }

  lemma PreemptCheckSettles(c: Core)
    requires Sched(c, {}, c.run) && c.run != NULL && c.next == c.run
    ensures Settled(PreemptCheck(c))
  {
    hide Places, Separate, InOrder, Typed, Sorted;
    if c.Ready() != [] && c.Prio(c.Ready()[0]) > c.Prio(c.run) {
      YieldSettles(c);
    }
  }

  /** rt_block on the running task, which has been queued on h (or waits for no object if h is NULL). */
  lemma BlockSettles(c: Core, h: Ptr, n: nat, st: TaskState)
    requires AtRest(c) && c.run != c.idle && 1 <= n <= NO_TIMEOUT
    requires if h == NULL then st == WAIT_DLY || st == WAIT_OR || st == WAIT_AND
             else h in c.g.lists && h != RDY && h in c.kind && WaitsIn(st, c.kind[h])
    ensures Settled(Block(if h == NULL then c else QueueRun(c, h), n, st))
  {
    hide Places, Separate, InOrder, Typed, Sorted, Settled, DelayPut, Queue;
    var run := c.run;
    assert Settled(c) && Sched(c, {}, run) && run != NULL by { SettledSched(c); }
    RunInHand(c, {}, run);
    assert {} + {run} == {run} && {run} - {run} == {};
    InHands(c, {run}, NULL, run);
    var c0 := if h == NULL then c else QueueRun(c, h);
    var c1 := c0.(state := c.state[run := st]);
    if h == NULL {
      SleepKeeps(c, {run}, NULL, run, st);
    } else {
      WaitKeeps(c, {run}, NULL, run, h, st);
    }
    var c2 := if n < NO_TIMEOUT then c1.(d := DelayPut(c1.d, run, n)) else c1;
    if n < NO_TIMEOUT {
      TimeoutKeeps(c1, {}, NULL, run, n);
    }
    SchedHeads(c, {}, run);
    IdleReady(c2, {}, NULL);
    DispatchNextSettles(c2);
    assert Block(c0, n, st) == DispatchNext(c2);
  }

  lemma SettledSched(c: Core)
    requires AtRest(c)
    ensures Sched(c, {}, c.run) && c.run != NULL && c.next == c.run && Tops(c, c.run)
    ensures c.run in c.g.tasks && c.Live(c.run) && c.State(c.run) == RUNNING
  {
  }

  lemma TskPassSettles(c: Core)
    requires AtRest(c)
    ensures Settled(TskPass(c))
  {
    hide Places, Separate, InOrder, Typed, Sorted;
    var run := c.run;
    SettledSched(c);
    if c.Ready() != [] && c.Prio(c.Ready()[0]) == c.Prio(run) {
      var t := c.Ready()[0];
      PopReadyKeeps(c, {}, run);
      var c1 := PopReady(c);
      assert {} + {t} == {t} && {t} - {t} == {};
      RunInHand(c1, {t}, run);
      assert {t} + {run} - {run} == {t};
      ToReadyKeeps(c1, {t} + {run}, NULL, run);
      var c2 := ToReady(c1, run);
      SwitchKeeps(c2, {t}, t);
      PassTops(c, c2, t);
      SchedHeads(c, {}, run);
    }
  }

  /** The task taken from the head still tops the list after the running task, of equal priority, is queued. */
  lemma PassTops(c: Core, c2: Core, t: Ptr)
    requires c.Ready() != [] && t == c.Ready()[0] && Sorted(c.prio, c.Ready()) && c.Prio(t) == c.Prio(c.run)
    requires c2 == ToReady(PopReady(c), c.run) && RDY in c.g.lists
    ensures Tops(Switch(c2, t), t)
  {
    var s := c.Ready();
    assert PopReady(c).Ready() == s[1..];
    assert c2.Ready() == Enter(c.prio, s[1..], c.run);
    assert |s| > 1 ==> At(c.prio, s[0], 0) >= At(c.prio, s[1], 0);
  }

  /** What a change of priority leaves alone. */
  lemma ReprioFields(c: Core, t: Ptr, p: nat)
    ensures var c' := Reprio(c, t, p);
            && c'.run == c.run && c'.next == c.next && c'.state == c.state && c'.idle == c.idle && c'.active == c.active
            && c'.prio == c.prio[t := p] && c'.kind == c.kind && c'.d == c.d && c'.g.tasks == c.g.tasks
  {
  }

  /** After re-sorting, every ready task but the changed one is still at most as urgent as the running one. */
  lemma ReprioReady(c: Core, t: Ptr, p: nat, i: nat)
    requires AtRest(c) && t in c.active && t != c.run && i < |Reprio(c, t, p).Ready()|
    ensures var c1 := Reprio(c, t, p);
            c1.Ready()[i] == t || c1.Prio(c1.Ready()[i]) <= c.Prio(c.run)
    ensures c.State(t) != READY ==> Reprio(c, t, p).Ready() == c.Ready()
  {
    hide Reprio, AtRest;
    ReprioMembers(c, t, p, i);
    ReprioFields(c, t, p);
    var x := Reprio(c, t, p).Ready()[i];
    if x != t {
      RunLeads(c, Index(c.Ready(), x));
    }
  }

  lemma RunLeads(c: Core, i: nat)
    requires AtRest(c) && i < |c.Ready()|
    ensures c.Prio(c.Ready()[i]) <= c.Prio(c.run)
  {
    hide InOrder, InHand, Delayed, Placed;
    assert c.Prio(c.Ready()[i]) <= c.Prio(c.Ready()[0]);
  }

  lemma ReprioMembers(c: Core, t: Ptr, p: nat, i: nat)
    requires AtRest(c) && t in c.active && t != c.run && i < |Reprio(c, t, p).Ready()|
    ensures var x := Reprio(c, t, p).Ready()[i]; x == t || x in c.Ready()
    ensures c.State(t) != READY ==> Reprio(c, t, p).Ready() == c.Ready()
  {
    hide InOrder, InHand, Delayed, Sorted, InsertPos;
    var c1, s := Reprio(c, t, p), c.Ready();
    assert Placed(c, t) && (OnList(c.g, t) <==> c.g.on[t] != NULL);
    if c.State(t) == READY {
      var j := Index(s, t);
      InsMembers(Del(s, j), InsertPos(c1.prio, Del(s, j), p), t);
      DelMembers(s, j);
      assert c1.Ready()[i] in c1.Ready();
    }
  }

  lemma TskPrioSettles(c: Core, t: Ptr, p: nat)
    requires AtRest(c)
    ensures Settled(TskPrio(c, t, p))
  {
    hide Places, Separate, InOrder, Typed, Reprio;
    var run := c.run;
    SettledSched(c);
    if t == NULL || (t in c.active && t == run) {
      ReprioKeeps(c, {}, run, run, p);
      ReprioFields(c, run, p);
      PreemptCheckSettles(Reprio(c, run, p));
    } else if t in c.active {
      var c1 := Reprio(c, t, p);
      ReprioKeeps(c, {}, run, t, p);
      ReprioFields(c, t, p);
      SchedHeads(c1, {}, run);
      var s := c1.Ready();
      if c1.State(t) == READY && s != [] {
        PopReadyKeeps(c1, {}, run);
        assert {} + {s[0]} == {s[0]};
        if |s| > 1 {
          ReprioReady(c, t, p, 0);
          ReprioReady(c, t, p, 1);
          assert c1.Prio(s[0]) >= c1.Prio(s[1]);
          ReadyDistinct(c1, {}, run);
        }
        DispatchSettles(PopReady(c1), s[0]);
      } else if s != [] {
        ReprioReady(c, t, p, 0);
        ReprioReadyNotMine(c, t, p);
      }
    }
  }

  lemma ReadyDistinct(c: Core, hands: set<Ptr>, cur: Ptr)
    requires Sched(c, hands, cur) && |c.Ready()| > 1
    ensures c.Ready()[0] != c.Ready()[1]
  {
  }

  lemma ReprioReadyNotMine(c: Core, t: Ptr, p: nat)
    requires AtRest(c) && t in c.active && t != c.run && c.State(t) != READY && c.Ready() != []
    ensures c.Ready()[0] != t
  {
    assert Placed(c, t);
  }

  lemma TskDeleteSettles(c: Core, t: Ptr)
    requires AtRest(c) && c.run != c.idle
    ensures Settled(TskDelete(c, t))
  {
    hide Separate, InOrder, Typed, Sorted, Unlink, DelayDrop;
    var run := c.run;
    SettledSched(c);
    SchedHeads(c, {}, run);
    if t == NULL || t == run {
      var c1 := c.(active := c.active - {run}, state := c.state[run := INACTIVE]);
      RetireKeeps(c);
      IdleReady(c1, {}, NULL);
      DispatchNextSettles(c1);
    } else if t in c.active {
      DeleteKeeps(c, t);
      DeleteTops(c, t);
    }
  }

  /** The running task terminates itself. */
  lemma RetireKeeps(c: Core)
    requires AtRest(c) && c.run != c.idle
    ensures Sched(c.(active := c.active - {c.run}, state := c.state[c.run := INACTIVE]), {}, NULL)
  {
    hide Sorted, InOrder;
    var run, c' := c.run, c.(active := c.active - {c.run}, state := c.state[c.run := INACTIVE]);
    assert Placed(c, run);
    forall x | x in c.g.tasks && x != run
      ensures Placed(c', x)
    {
      assert Placed(c, x);
    }
  }

  /** Another task is terminated. */
  lemma DeleteKeeps(c: Core, t: Ptr)
    requires AtRest(c) && t in c.active && t != c.run
    ensures Sched(TskDelete(c, t), {}, c.run)
  {
    hide Sorted, DelayOk, Places, Unlink, DelayDrop;
    var c' := TskDelete(c, t);
    assert t in c.g.tasks && t != NULL;
    SeparateUnlink(c.g, t);
    OrderedUnlink(c, t);
    DropKeepsOthers(c.d, t);
    DeletePlaces(c, t, c');
    assert forall h :: h in c'.g.lists <==> h in c.g.lists;
  }

  lemma DeletePlaces(c: Core, t: Ptr, c': Core)
    requires Places(c, {}, c.run) && t in c.g.tasks && t in c.active && t != c.run && t != c.idle && DelayOk(c.d)
    requires c'.g.on == c.g.on[t := NULL] && c'.g.tasks == c.g.tasks && c'.g.stale <= c.g.stale + {t}
    requires c'.d == DelayDrop(c.d, t) && c'.active == c.active - {t} && c'.idle == c.idle
    requires c'.kind == c.kind && c'.state == c.state
    ensures Places(c', {}, c.run)
  {
    hide DelayDrop, DelayOk;
    DropTasks(c.d, t);
    DropWithin(c.d, t);
    forall x | x in c.g.tasks && x != t
      ensures Placed(c', x)
    {
      assert Placed(c, x);
    }
  }

  lemma OrderedUnlink(c: Core, t: Ptr)
    requires Ordered(c)
    ensures Ordered(c.(g := Unlink(c.g, t)))
  {
    if OnList(c.g, t) {
      var h := c.g.on[t];
      assert h in c.g.lists;
      SortedDel(c.prio, c.g.lists[h], Index(c.g.lists[h], t));
    }
  }

  lemma DeleteTops(c: Core, t: Ptr)
    requires AtRest(c) && t in c.active && t != c.run
    ensures Tops(TskDelete(c, t), c.run)
  {
    hide InOrder, Places, DelayDrop;
    var s, s' := c.Ready(), TskDelete(c, t).Ready();
    if s' != [] && s' != s {
      assert c.g.on[t] == RDY && s' == Del(s, Index(s, t));
      assert s'[0] == s[0] || s'[0] == s[1];
    }
  }

  lemma TskCreateSettles(c: Core, t: Ptr, p: nat)
    requires AtRest(c) && t in c.g.tasks && !c.Live(t)
    ensures Settled(TskCreate(c, t, p))
  {
    hide InOrder, NoDup;
    var c1 := c.(g := Fresh(c.g, t), active := c.active + {t}, prio := c.prio[t := p], state := c.state[t := READY]);
    assert Placed(c, t);
    forall h | h in c.g.lists
      ensures Sorted(c1.prio, c1.g.lists[h])
    {
      SortedSkip(c.prio, c.g.lists[h], t, p);
    }
    CreatePlaces(c, t, c1);
    DispatchSettles(c1, t);
  }

  lemma CreatePlaces(c: Core, t: Ptr, c1: Core)
    requires Places(c, {}, c.run) && c.run != NULL && t in c.g.tasks && !c.Live(t)
    requires c1.g == Fresh(c.g, t) && c1.active == c.active + {t} && c1.state == c.state[t := READY]
    requires c1.d == c.d && c1.idle == c.idle && c1.kind == c.kind
    ensures Places(c1, {t}, c.run)
  {
    assert Placed(c, t);
    forall x | x in c.g.tasks && x != t
      ensures Placed(c1, x)
    {
      assert Placed(c, x);
    }
  }

  /** The first waiter of h is woken and competes with the running task. */
  lemma WakeSettles(c: Core, h: Ptr)
    requires AtRest(c) && h in c.g.lists && h != RDY && c.g.lists[h] != []
    ensures Settled(Dispatch(WakeFirst(c, h), c.g.lists[h][0]))
  {
    hide Places, Separate, InOrder, Typed, Sorted, DelayDrop;
    var run, t := c.run, c.g.lists[h][0];
    SettledSched(c);
    WakeFirstKeeps(c, {}, run, h);
    assert {} + {t} == {t};
    DispatchSettles(WakeFirst(c, h), t);
  }

  lemma {:induction false} WakeAllKeeps(c: Core, cur: Ptr, h: Ptr)
    requires Sched(c, {}, cur) && h in c.g.lists && h != RDY
    ensures Sched(WakeAll(c, h), {}, cur)
    ensures var c' := WakeAll(c, h);
            && c'.run == c.run && c'.next == c.next && c'.idle == c.idle && c'.active == c.active && c'.kind == c.kind
            && c'.g.tasks == c.g.tasks && c'.List(h) == [] && c'.g.lists.Keys == c.g.lists.Keys
    decreases |c.List(h)|
  {
    hide Places, Separate, InOrder, Typed, Sorted, DelayDrop, Ordered, Fields, Ins;
    if c.List(h) != [] {
      var t, c1 := c.List(h)[0], WakeFirst(c, h);
      WakeFirstKeeps(c, {}, cur, h);
      assert {} + {t} == {t} && {t} - {t} == {};
      ToReadyKeeps(c1, {t}, cur, t);
      SchedHeads(c, {}, cur);
      WakeAllKeeps(ToReady(c1, t), cur, h);
      assert ToReady(c1, t).g.lists.Keys == c.g.lists.Keys;
    }
  }

  /** A deleted object has no waiters, so it may lose its type. */
  lemma RetypeKeeps(c: Core, cur: Ptr, h: Ptr)
    requires Sched(c, {}, cur) && h in c.g.lists && h != RDY && c.g.lists[h] == []
    ensures Sched(c.(kind := c.kind[h := TCB]), {}, cur)
  {
    hide Sorted, InOrder, NoDup;
    var c' := c.(kind := c.kind[h := TCB]);
    forall x | x in c.g.tasks
      ensures Placed(c', x)
    {
      assert Placed(c, x);
    }
  }

  lemma DiscardSettles(c: Core, h: Ptr)
    requires Sched(c, {}, c.run) && c.run != NULL && c.next == c.run && h in c.g.lists && h != RDY
    ensures var c1 := PreemptCheck(WakeAll(c, h));
            h in c1.g.lists && c1.g.lists[h] == [] && c1.kind == c.kind && Settled(c1.(kind := c1.kind[h := TCB]))
  {
    hide Places, Separate, InOrder, Typed, Sorted;
    WakeAllKeeps(c, c.run, h);
    var c0 := WakeAll(c, h);
    PreemptCheckSettles(c0);
    PreemptCheckTouches(c0);
    RetypeKeeps(PreemptCheck(c0), PreemptCheck(c0).next, h);
  }

  /** Moves between running and ready: wait lists, types and the task table stay as they are. */
  ghost predicate ReadyOnly(c: Core, c': Core) {
    && c'.g.tasks == c.g.tasks && c'.kind == c.kind && c'.active == c.active && c'.idle == c.idle && c'.d == c.d
    && (forall h :: h != RDY ==> c'.List(h) == c.List(h) && (h in c'.g.lists <==> h in c.g.lists))
    && (forall t :: c'.State(t) == c.State(t) || c'.State(t) == READY || c'.State(t) == RUNNING)
  }

  lemma PreemptCheckTouches(c: Core)
    ensures ReadyOnly(c, PreemptCheck(c)) && ReadyOnly(c, DispatchNext(c)) && PreemptCheck(c).prio == c.prio
  {
    hide Ins;
  }

  lemma DispatchTouches(c: Core, t: Ptr)
    ensures ReadyOnly(c, Dispatch(c, t)) && ReadyOnly(c, ToReady(c, t)) && Dispatch(c, t).prio == c.prio
  {
  }

  /** rt_mut_release hands the mutex to its first waiter t while the caller's priority falls. */
  lemma HandOverSettles(c: Core, m: Ptr)
    requires Sched(c, {}, c.run) && c.run != NULL && c.next == c.run && m in c.g.lists && m != RDY && c.g.lists[m] != []
    ensures var c1, t := WakeFirst(c, m), c.g.lists[m][0];
            Settled(HandTo(c1, t))
  {
    hide Places, Separate, InOrder, Typed, Sorted, DelayDrop;
    var run, t, c1 := c.run, c.g.lists[m][0], WakeFirst(c, m);
    WakeFirstKeeps(c, {}, run, m);
    assert {} + {t} == {t} && {t} - {t} == {};
    if c1.Ready() != [] && c1.Prio(run) < c1.Prio(c1.Ready()[0]) {
      RunInHand(c1, {t}, run);
      assert {t} + {run} - {run} == {t};
      ToReadyKeeps(c1, {t} + {run}, NULL, run);
      var c2 := ToReady(c1, run);
      ToReadyKeeps(c2, {t}, NULL, t);
      SchedHeads(c2, {t}, NULL);
      DispatchNextSettles(ToReady(c2, t));
    } else {
      DispatchSettles(c1, t);
    }
  }

  /** A wake-up by event flags: t waits on no list. */
  lemma SignalSettles(c: Core, t: Ptr)
    requires AtRest(c) && t in c.active && (c.State(t) == WAIT_AND || c.State(t) == WAIT_OR)
    ensures Settled(Dispatch(c.(d := DelayDrop(c.d, t)), t))
  {
    hide Places, Separate, InOrder, Typed, Sorted, DelayDrop;
    SettledSched(c);
    SignalKeeps(c, {}, c.run, t);
    assert {} + {t} == {t};
    DispatchSettles(c.(d := DelayDrop(c.d, t)), t);
  }

  lemma SignalKeeps(c: Core, hands: set<Ptr>, cur: Ptr, t: Ptr)
    requires Sched(c, hands, cur) && t in c.active && t !in hands && (c.State(t) == WAIT_AND || c.State(t) == WAIT_OR)
    ensures Sched(c.(d := DelayDrop(c.d, t)), hands + {t}, cur)
  {
    hide Sorted, NoDup, DelayDrop;
    var c' := c.(d := DelayDrop(c.d, t));
    assert Placed(c, t);
    DropKeepsOthers(c.d, t);
    DropTasks(c.d, t);
    DropWithin(c.d, t);
    forall x | x in c.g.tasks && x != t
      ensures if x in hands then InHand(c', x) else Placed(c', x)
    {
      assert if x in hands then InHand(c, x) else Placed(c, x);
    }
  }

  /** The running task goes to the front of the ready list, as in rt_systick and rt_pop_req. */
  lemma FrontKeeps(c: Core)
    requires AtRest(c)
    ensures Sched(ReadyAt(c, 0, c.run), {}, NULL) && ReadyAt(c, 0, c.run).Ready() == [c.run] + c.Ready()
  {
    hide Places, Separate, InOrder, Typed;
    var run := c.run;
    SettledSched(c);
    RunInHand(c, {}, run);
    assert {} + {run} == {run} && {run} - {run} == {};
    FrontSorted(c.prio, c.Ready(), run);
    ReadyAtKeeps(c, {run}, NULL, run, 0);
  }

  lemma RotateKeeps(c: Core)
    requires Sched(c, {}, NULL) && c.Ready() != []
    ensures Sched(c.(g := Queue(Pop(c.g, RDY), c.prio, RDY, c.Ready()[0])), {}, NULL)
  {
    hide Separate, InOrder, Typed, Sorted, Ins;
    var t := c.Ready()[0];
    SchedHeads(c, {}, NULL);
    OnReady(c, {}, NULL, 0);
    PopReadyKeeps(c, {}, NULL);
    assert {} + {t} == {t} && {t} - {t} == {};
    ToReadyKeeps(PopReady(c), {t}, NULL, t);
    assert c.state[t := READY] == c.state;
    assert ToReady(PopReady(c), t) == c.(g := Queue(Pop(c.g, RDY), c.prio, RDY, t));
  }

  lemma OnReady(c: Core, hands: set<Ptr>, cur: Ptr, i: nat)
    requires Sched(c, hands, cur) && i < |c.Ready()|
    ensures c.Ready()[i] in c.g.tasks && c.Live(c.Ready()[i]) && c.State(c.Ready()[i]) == READY
    ensures c.Ready()[i] in c.state
  {
    var t := c.g.lists[RDY][i];
    assert c.g.on[t] == RDY;
    assert if t in hands then InHand(c, t) else Placed(c, t);
  }

  lemma {:induction false} ExpireKeeps(c: Core)
    requires Sched(c, {}, NULL) && c.Ready() != []
    ensures Sched(Expire(c), {}, NULL) && Expire(c).Ready() != []
    ensures forall i :: 0 <= i < |Expire(c).d| ==> Expire(c).d[i].rem > 1
    decreases |c.d|
  {
    hide Places, Separate, Typed, Sorted, Ordered, Fields, Unlink;
    if c.d != [] && c.d[0].rem == 1 {
      TimeUpKeeps(c, {}, NULL);
      ExpireKeeps(TimeUp(c));
    }
  }

  /** One tick: remaining times fall by one, and the tasks that reach zero become ready. */
  lemma DecDlyKeeps(c: Core)
    requires Sched(c, {}, NULL) && c.Ready() != []
    ensures Sched(DecDly(c), {}, NULL) && DecDly(c).Ready() != []
  {
    hide Separate, Typed, Sorted, Expire;
    ExpireKeeps(c);
    var c1, c2 := Expire(c), DecDly(c);
    assert Tasks(c2.d) == Tasks(c1.d);
    forall x | x in c1.g.tasks
      ensures Placed(c2, x)
    {
      assert Placed(c1, x);
    }
  }
}
