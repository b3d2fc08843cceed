/** What each call does to the tasks in line for the processor, to waiters, to priorities and to results. */
module RtxEffects {
  import opened Links
  import opened TaskLists
  import opened RtxOrder
  import opened Delays
  import opened RtxList
  import opened RtxSched
  import opened RtxPlaces
  import opened RtxRest
  import opened RtxSpec
  import opened RtxObjects
  import opened RtxFrames
  import opened RtxFacts
  import opened RtxMail
  import opened RtxKeeps
  import opened RtxTimes

  /** The tasks that can run, in the order in which they get the processor. */
  ghost function Line(c: Core): (s: seq<Ptr>) {
    [c.run] + c.Ready()
  }

  /** s' is s with t behind the tasks of its own or a higher priority. */
  ghost predicate Queued(prio: map<Ptr, nat>, s: seq<Ptr>, s': seq<Ptr>, t: Ptr) {
    exists i :: 0 <= i <= |s| && s' == s[..i] + [t] + s[i..]
      && (forall j :: 0 <= j < i ==> At(prio, s[j], 0) >= At(prio, t, 0))
      && (i < |s| ==> At(prio, s[i], 0) < At(prio, t, 0))
  }

  /** Nothing but lists, states and the running task differs; control blocks stay. */
  ghost predicate SameObjects(k: KState, k': KState) {
    k' == k.(c := k'.c, ret := k'.ret)
  }

  // ----- the scheduler's steps

  lemma Enters(prio: map<Ptr, nat>, s: seq<Ptr>, t: Ptr)
    ensures Queued(prio, s, Ins(s, InsertPos(prio, s, At(prio, t, 0)), t), t)
  {
    var i := InsertPos(prio, s, At(prio, t, 0));
    assert Ins(s, i, t) == s[..i] + [t] + s[i..];
  }

  lemma ReadyLine(c: Core, t: Ptr)
    ensures var r := ToReady(c, t); r == c.(g := r.g, state := r.state) && r.g.tasks == c.g.tasks
    ensures Queued(c.prio, c.Ready(), ToReady(c, t).Ready(), t)
    ensures forall h :: h != RDY ==> ToReady(c, t).List(h) == c.List(h)
  {
    hide InsertPos, Ins;
    Enters(c.prio, c.Ready(), t);
  }

  lemma DispatchLine(c: Core, t: Ptr)
    requires c.next == c.run
    ensures var r := Commit(Dispatch(c, t));
            && r == c.(g := r.g, state := r.state, run := r.run, next := r.next) && r.next == r.run
            && Queued(c.prio, Line(c), Line(r), t) && Up(r.State(t))
            && forall h :: h != RDY ==> r.List(h) == c.List(h)
  {
    hide Switch, ReadyAt, ToReady, Queued;
    if c.Prio(t) > c.Prio(c.run) {
      TakesOver(c, t);
    } else {
      GetsReady(c, t);
    }
  }

  lemma TakesOver(c: Core, t: Ptr)
    requires c.Prio(t) > c.Prio(c.run)
    ensures var r := Commit(Switch(ReadyAt(c, 0, c.run), t));
            && r == c.(g := r.g, state := r.state, run := r.run, next := r.next) && r.next == r.run
            && Queued(c.prio, Line(c), Line(r), t) && Up(r.State(t))
            && forall h :: h != RDY ==> r.List(h) == c.List(h)
  {
    var r := Commit(Switch(ReadyAt(c, 0, c.run), t));
    assert Line(r) == Line(c)[..0] + [t] + Line(c)[0..];
  }

  lemma GetsReady(c: Core, t: Ptr)
    requires c.next == c.run && c.Prio(t) <= c.Prio(c.run)
    ensures var r := Commit(ToReady(c, t));
            && r == c.(g := r.g, state := r.state, run := r.run, next := r.next) && r.next == r.run
            && Queued(c.prio, Line(c), Line(r), t) && Up(r.State(t))
            && forall h :: h != RDY ==> r.List(h) == c.List(h)
  {
    hide InsertPos;
    var s, r, i := c.Ready(), Commit(ToReady(c, t)), InsertPos(c.prio, c.Ready(), c.Prio(t));
    assert Line(r) == Line(c)[..i + 1] + [t] + Line(c)[i + 1..];
    assert forall j :: 1 <= j <= |s| ==> Line(c)[j] == s[j - 1];
  }

  lemma NextLine(c: Core)
    requires c.Ready() != []
    ensures var r := Commit(DispatchNext(c));
            && r == c.(g := r.g, state := r.state, run := r.run, next := r.next) && r.next == r.run && Line(r) == c.Ready()
            && forall h :: h != RDY ==> r.List(h) == c.List(h)
  {
  }

  /** The running task has to give way exactly to a more urgent ready task; it goes behind its equals. */
  lemma PreemptLine(c: Core)
    requires c.next == c.run
    ensures var r := Commit(PreemptCheck(c));
            && r == c.(g := r.g, state := r.state, run := r.run, next := r.next) && r.next == r.run
            && (if c.Ready() != [] && c.Prio(c.Ready()[0]) > c.Prio(c.run) then Queued(c.prio, c.Ready(), Line(r), c.run)
                else r == c)
            && forall h :: h != RDY ==> r.List(h) == c.List(h)
  {
    hide InsertPos, ToReady;
    if c.Ready() != [] && c.Prio(c.Ready()[0]) > c.Prio(c.run) {
      ReadyLine(c, c.run);
      NextLine(ToReady(c, c.run));
    }
  }

  // ----- tasks

  /**
   * rt_tsk_pass: the running task gives way to the next ready task exactly if that has its priority, and goes behind the
   * others of that priority.
   */
  lemma PassYields(k: KState)
    requires KInv(k) && Legal(k, Pass)
    ensures var k', s := Do(k, Pass), k.c.Ready();
            && k' == k.(c := k'.c) && k'.c.prio == k.c.prio
            && if s != [] && k.c.Prio(s[0]) == k.c.Prio(k.c.run)
               then k'.c.run == s[0] && Queued(k.c.prio, s[1..], k'.c.Ready(), k.c.run)
               else k' == k
  {
    hide KInv, AtRest, TskPass, Queued;
    KInvObjects(k);
    AtRestNext(k.c);
    PassLine(k.c);
  }

  lemma PassLine(c: Core)
    requires c.next == c.run && Commit(c) == c
    ensures var r, s := Commit(TskPass(c)), c.Ready();
            && r.prio == c.prio
            && if s != [] && c.Prio(s[0]) == c.Prio(c.run) then r.run == s[0] && Queued(c.prio, s[1..], r.Ready(), c.run)
               else r == c
  {
    hide ToReady, Queued;
    var s := c.Ready();
    if s != [] {
      ReadyLine(PopReady(c), c.run);
      assert PopReady(c).Ready() == s[1..];
    }
  }

  lemma AtRestNext(c: Core)
    requires AtRest(c)
    ensures c.next == c.run && Commit(c) == c
  {
  }

  /** A new task competes by its priority, has no event flags, and changes nothing for the others. */
  lemma CreateCompetes(k: KState, t: Ptr, p: nat)
    requires KInv(k) && Legal(k, Create(t, p))
    ensures var k' := Do(k, Create(t, p));
            && k' == k.(c := k'.c, events := k.events[t := 0], waits := k.waits[t := 0])
            && k'.c.active == k.c.active + {t} && k'.c.prio == k.c.prio[t := p] && k'.c.d == k.c.d
            && Queued(k'.c.prio, Line(k.c), Line(k'.c), t) && Up(k'.c.State(t))
            && forall h :: h != RDY ==> k'.List(h) == k.List(h)
  {
    hide KInv, Dispatch, Legal;
    KInvObjects(k);
    AtRestNext(k.c);
    var c1 := k.c.(g := Fresh(k.c.g, t), active := k.c.active + {t}, prio := k.c.prio[t := p], state := k.c.state[t := READY]);
    DispatchLine(c1, t);
    assert Line(c1) == Line(k.c);
  }

  /** A task that ends itself makes way for the ready tasks; its time-out, priority and the others are not touched. */
  lemma EndsItself(k: KState, t: Ptr)
    requires KInv(k) && Legal(k, Delete(t)) && (t == NULL || t == k.c.run)
    ensures var k' := Do(k, Delete(t));
            && k' == k.(c := k'.c, ret := k.ret[k.c.run := Code(OS_R_OK)])
            && Line(k'.c) == k.c.Ready() && k'.c.State(k.c.run) == INACTIVE && k'.c.active == k.c.active - {k.c.run}
            && k'.c.prio == k.c.prio && k'.c.d == k.c.d && forall h :: h != RDY ==> k'.List(h) == k.List(h)
  {
    hide KInv, DispatchNext, AtRest;
    KInvObjects(k);
    RestFacts(k.c);
    var c1 := k.c.(active := k.c.active - {k.c.run}, state := k.c.state[k.c.run := INACTIVE]);
    NextLine(c1);
    NotNext(k.c);
    HeadElsewhere(c1);
  }

  lemma NotNext(c: Core)
    requires AtRest(c)
    ensures c.run !in c.Ready() && c.run in c.state
  {
    assert Placed(c, c.run);
  }

  lemma HeadElsewhere(c: Core)
    requires c.Ready() != [] && c.run !in c.Ready()
    ensures Commit(DispatchNext(c)).State(c.run) == c.State(c.run)
  {
  }

  /** Another task that is ended leaves the list it is on and the delay list, and is active no more. */
  lemma EndsOther(k: KState, t: Ptr)
    requires KInv(k) && Legal(k, Delete(t)) && t != NULL && t != k.c.run
    ensures var k' := Do(k, Delete(t));
            && k' == k.(c := k'.c, ret := k.ret[k.c.run := Code(if t in k.c.active then OS_R_OK else OS_R_NOK)])
            && k'.c.run == k.c.run && k'.c.active == k.c.active - {t} && k'.c.prio == k.c.prio && k'.c.state == k.c.state
            && (t !in k.c.active ==> k'.c == k.c)
            && (t in k.c.active ==>
                  && (forall x, r :: Delay(x, r) in k'.c.d <==> Delay(x, r) in k.c.d && x != t)
                  && forall h :: h in k.c.g.lists ==> k'.List(h) == Less(k.List(h), t))
  {
    hide KInv, AtRest, Unlink, DelayDrop, DelayOk;
    KInvObjects(k);
    RestDelays(k.c);
    ApplyDelete(k, t);
    AtRestNext(k.c);
    if t in k.c.active {
      DropKeepsOthers(k.c.d, t);
      forall h | h in k.c.g.lists
        ensures At(Unlink(k.c.g, t).lists, h, []) == Less(k.List(h), t)
      {
        UnlinkLess(k.c, t, h);
      }
    } else {
      assert k.c.active - {t} == k.c.active;
    }
  }

  /** s without its first t. */
  ghost function Less(s: seq<Ptr>, t: Ptr): (r: seq<Ptr>) {
    if s == [] then [] else if s[0] == t then s[1..] else [s[0]] + Less(s[1..], t)
  }

  lemma {:induction false} LessDel(s: seq<Ptr>, t: Ptr)
    ensures Less(s, t) == if t in s then Del(s, Index(s, t)) else s
  {
    if s != [] && s[0] != t {
      LessDel(s[1..], t);
      assert s == [s[0]] + s[1..];
      if t in s {
        DelBehind(s, Index(s[1..], t));
      }
    }
  }

  lemma DelBehind(s: seq<Ptr>, i: nat)
    requires i + 1 < |s|
    ensures Del(s, i + 1) == [s[0]] + Del(s[1..], i)
  {
  }

  lemma UnlinkLess(c: Core, t: Ptr, h: Ptr)
    requires AtRest(c) && t in c.active && h in c.g.lists
    ensures At(Unlink(c.g, t).lists, h, []) == Less(c.List(h), t)
  {
    hide InOrder, Sorted, NoDup;
    LessDel(c.List(h), t);
    OnListOrLoose(c, {}, c.run, t) by { SettledSched(c); ActiveIsTask(c); }
  }

  // ----- priorities

  /** The caller's new priority counts at once: it gives way exactly to a ready task that is more urgent now. */
  lemma OwnPriority(k: KState, t: Ptr, p: nat)
    requires KInv(k) && Legal(k, SetPrio(t, p)) && (t == NULL || t == k.c.run)
    ensures var k', s := Do(k, SetPrio(t, p)), k.c.Ready();
            && k' == k.(c := k'.c, ret := k.ret[k.c.run := Code(OS_R_OK)])
            && k'.c.prio == k.c.prio[k.c.run := p] && k'.c.d == k.c.d && k'.c.active == k.c.active
            && (if s != [] && At(k'.c.prio, s[0], 0) > p then Queued(k'.c.prio, s, Line(k'.c), k.c.run)
                else Line(k'.c) == Line(k.c))
            && forall h :: h != RDY ==> k'.List(h) == k.List(h)
  {
    hide KInv, AtRest, PreemptCheck, Legal;
    KInvObjects(k);
    RestDelays(k.c);
    AtRestNext(k.c);
    RunIsActive(k, SetPrio(t, p));
    NotOnList(k.c);
    PreemptLine(k.c.(prio := k.c.prio[k.c.run := p]));
  }

  lemma RunIsActive(k: KState, a: Call)
    requires KInv(k) && Legal(k, a) && !a.SysTick? && !a.PendSV? && !StartsUp(a)
    ensures k.c.run in k.c.active && k.c.run != k.c.idle
  {
    assert Placed(k.c, k.c.run);
  }

  /** A task that is not active has no priority to change. */
  lemma NoPriority(k: KState, t: Ptr, p: nat)
    requires KInv(k) && t != NULL && t !in k.c.active && t != k.c.run
    ensures Do(k, SetPrio(t, p)) == k.(ret := k.ret[k.c.run := Code(OS_R_NOK)])
  {
    hide KInv, PreemptCheck, Reprio, Dispatch;
    KInvObjects(k);
    AtRestNext(k.c);
  }

  /**
   * Another task's new priority moves it within the list that it waits on. A ready task moves within the ready list,
   * and the task that is first there then competes with the running one, behind its equals if it has to go back.
   */
  lemma OthersPriority(k: KState, t: Ptr, p: nat)
    requires KInv(k) && Legal(k, SetPrio(t, p)) && t != NULL && t != k.c.run && t in k.c.active
    ensures var k', h := Do(k, SetPrio(t, p)), At(k.c.g.on, t, NULL);
            && k' == k.(c := k'.c, ret := k.ret[k.c.run := Code(OS_R_OK)])
            && k'.c.prio == k.c.prio[t := p] && k'.c.d == k.c.d && k'.c.active == k.c.active
            && (forall x :: x in k.c.g.lists && x != RDY ==>
                  if x == h then Queued(k'.c.prio, Less(k.List(h), t), k'.List(h), t) else k'.List(x) == k.List(x))
            && if h == RDY
               then exists s :: s != [] && Queued(k'.c.prio, Less(k.c.Ready(), t), s, t) &&
                      Queued(k'.c.prio, [k.c.run] + s[1..], Line(k'.c), s[0])
               else Line(k'.c) == Line(k.c)
  {
    hide KInv, AtRest, TskPrio, Queued, Less, Legal;
    KInvObjects(k);
    RestDelays(k.c);
    AtRestNext(k.c);
    PriorityMoves(k.c, t, p);
  }

  lemma PriorityMoves(c: Core, t: Ptr, p: nat)
    requires AtRest(c) && t != NULL && t != c.run && t in c.active
    ensures var c', h := Commit(TskPrio(c, t, p)), At(c.g.on, t, NULL);
            && c'.prio == c.prio[t := p] && c'.d == c.d && c'.active == c.active
            && (forall x :: x in c.g.lists && x != RDY ==>
                  if x == h then Queued(c'.prio, Less(c.List(h), t), c'.List(h), t) else c'.List(x) == c.List(x))
            && if h == RDY
               then exists s :: s != [] && Queued(c'.prio, Less(c.Ready(), t), s, t) &&
                      Queued(c'.prio, [c.run] + s[1..], Line(c'), s[0])
               else Line(c') == Line(c)
  {
    hide AtRest, Dispatch, Reprio, Queued, Less;
    var c1 := Reprio(c, t, p);
    AtRestNext(c);
    ReprioFields(c, t, p);
    CanResort(c, t, p);
    forall x | x in c.g.lists
      ensures if x == At(c.g.on, t, NULL) then Queued(c1.prio, Less(c.List(x), t), c1.List(x), t) else c1.List(x) == c.List(x)
    {
      ReprioQueued(c, t, p, x);
    }
    if c.State(t) == READY {
      StillHead(c, t, p);
      DispatchLine(PopReady(c1), c1.Ready()[0]);
      assert Line(PopReady(c1)) == [c.run] + c1.Ready()[1..];
    } else {
      ReadyThere(c);
    }
  }

  lemma ReadyThere(c: Core)
    requires AtRest(c)
    ensures RDY in c.g.lists
  {
  }

  lemma StillHead(c: Core, t: Ptr, p: nat)
    requires AtRest(c) && t in c.active && t != c.run && c.State(t) == READY
    ensures Reprio(c, t, p).Ready() != [] && RDY in c.g.lists
  {
    hide AtRest, Reprio;
    OtherReady(c, t, p);
    ReadyThere(c);
  }

  lemma ReprioQueued(c: Core, t: Ptr, p: nat, x: Ptr)
    requires AtRest(c) && t in c.active && x in c.g.lists
    ensures var c1 := Reprio(c, t, p);
            if x == At(c.g.on, t, NULL) then Queued(c1.prio, Less(c.List(x), t), c1.List(x), t) else c1.List(x) == c.List(x)
  {
    hide InOrder, Sorted, NoDup, InsertPos;
    LessDel(c.List(x), t);
    OnListOrLoose(c, {}, c.run, t) by { SettledSched(c); ActiveIsTask(c); }
    Enters(c.prio[t := p], Less(c.List(x), t), t);
  }

  // ----- semaphores

  /**
   * A release wakes the first waiter, with result 1 and no time-out left, and that competes by its priority; without
   * waiters the semaphore gets a token more.
   */
  lemma ReleaseWakes(k: KState, h: Ptr)
    requires KInv(k) && Legal(k, SendSem(h))
    ensures var k', s := Do(k, SendSem(h)), k.List(h);
            if s == [] then
              k' == k.(tokens := k.tokens[h := (At(k.tokens, h, 0) + 1) % 0x1_0000], ret := k.ret[k.c.run := Code(OS_R_OK)])
            else
              && k' == k.(c := k'.c, ret := k.ret[k.c.run := Code(OS_R_OK)][s[0] := Val(1)])
              && Woken(k.c, k'.c, h)
  {
    hide KInv, AtRest, Dispatch, Legal, WakeFirst, Woken;
    KInvObjects(k);
    AtRestNext(k.c);
    SemaphoreHere(k, SendSem(h), h);
    if k.List(h) != [] {
      WokenLine(k.c, h);
    }
  }

  lemma SemaphoreHere(k: KState, a: Call, h: Ptr)
    requires KInv(k) && Legal(k, a) && (a == SendSem(h) || (a.WaitSem? && a.obj == h))
    ensures h in k.tokens && h != RDY
  {
    assert ObjectOk(k, h);
  }

  /** The first waiter of h is off its list and has no time-out; it competes by its priority. All else stays. */
  ghost predicate Woken(c: Core, c': Core, h: Ptr)
    requires c.List(h) != []
  {
    var t := c.List(h)[0];
    && Queued(c.prio, Line(c), Line(c'), t) && Up(c'.State(t)) && c'.List(h) == c.List(h)[1..]
    && (forall x :: x != RDY && x != h ==> c'.List(x) == c.List(x))
    && (forall x, r :: Delay(x, r) in c'.d <==> Delay(x, r) in c.d && x != t)
    && c'.prio == c.prio && c'.active == c.active && c'.kind == c.kind
  }

  lemma WokenLine(c: Core, h: Ptr)
    requires AtRest(c) && c.List(h) != [] && h != RDY
    ensures Woken(c, Commit(Dispatch(WakeFirst(c, h), c.List(h)[0])), h)
  {
    hide Dispatch, AtRest, DelayDrop, DelayOk, Queued, WakeFirst;
    var t, c1 := c.List(h)[0], WakeFirst(c, h);
    RestDelays(c);
    AtRestNext(c);
    WokenFields(c, h);
    DropKeepsOthers(c.d, t);
    DispatchLine(c1, t);
  }

  lemma WokenFields(c: Core, h: Ptr)
    requires c.List(h) != [] && h != RDY
    ensures var r := WakeFirst(c, h);
            && r == c.(g := r.g, d := DelayDrop(c.d, c.List(h)[0])) && r.List(h) == c.List(h)[1..] && Line(r) == Line(c)
            && forall x :: x != h ==> r.List(x) == c.List(x)
  {
  }

  /** A wait takes a token if there is one, and fails at once if there is none and its time-out is 0. */
  lemma WaitTakesToken(k: KState, h: Ptr, n: nat)
    requires KInv(k) && Legal(k, WaitSem(h, n)) && (At(k.tokens, h, 0) > 0 || n == 0)
    ensures Do(k, WaitSem(h, n)) ==
            if At(k.tokens, h, 0) > 0
            then k.(tokens := k.tokens[h := At(k.tokens, h, 0) - 1], ret := k.ret[k.c.run := Code(OS_R_OK)])
            else k.(ret := k.ret[k.c.run := Code(OS_R_TMO)])
  {
    hide KInv, AtRest, Legal, BlockOn;
    KInvObjects(k);
    AtRestNext(k.c);
    SemaphoreHere(k, WaitSem(h, n), h);
  }

  // ----- deletion of an object

  /** The waiters of h can run, without time-outs; everybody else is as before, but for who runs. */
  ghost predicate AllWoken(c: Core, c': Core, h: Ptr) {
    && c'.List(h) == [] && (forall x :: x != RDY && x != h ==> c'.List(x) == c.List(x))
    && (forall x, r :: Delay(x, r) in c'.d <==> Delay(x, r) in c.d && x !in c.List(h))
    && (forall x :: x in c.List(h) ==> Up(c'.State(x)))
    && (forall x :: x !in c.List(h) ==> c'.State(x) == c.State(x) || (Up(c.State(x)) && Up(c'.State(x))))
    && c'.prio == c.prio && c'.active == c.active
  }

  lemma {:induction false} WakesAll(c: Core, h: Ptr)
    requires DelayOk(c.d) && h != RDY
    ensures AllWoken(c, WakeAll(c, h), h) && WakeAll(c, h).kind == c.kind
    ensures WakeAll(c, h).run == c.run && WakeAll(c, h).next == c.next && DelayOk(WakeAll(c, h).d)
    decreases |c.List(h)|
  {
    hide DelayOk, ToReady, WakeFirst, AllWoken;
    if c.List(h) == [] {
      NoneWoken(c, h);
    } else {
      var c1 := ToReady(WakeFirst(c, h), c.List(h)[0]);
      OneWoken(c, h);
      WakesAll(c1, h);
      MoreWoken(c, c1, WakeAll(c1, h), h);
    }
  }

  lemma NoneWoken(c: Core, h: Ptr)
    requires c.List(h) == []
    ensures AllWoken(c, c, h)
  {
  }

  /** One step of the way. */
  ghost predicate FirstWoken(c: Core, c1: Core, h: Ptr)
    requires c.List(h) != []
  {
    var t := c.List(h)[0];
    && c1.List(h) == c.List(h)[1..] && (forall x :: x != RDY && x != h ==> c1.List(x) == c.List(x))
    && (forall x, r :: Delay(x, r) in c1.d <==> Delay(x, r) in c.d && x != t)
    && Up(c1.State(t)) && (forall x :: x != t ==> c1.State(x) == c.State(x))
    && c1.prio == c.prio && c1.active == c.active && c1.kind == c.kind && c1.run == c.run && c1.next == c.next
  }

  lemma OneWoken(c: Core, h: Ptr)
    requires DelayOk(c.d) && h != RDY && c.List(h) != []
    ensures FirstWoken(c, ToReady(WakeFirst(c, h), c.List(h)[0]), h) && DelayOk(ToReady(WakeFirst(c, h), c.List(h)[0]).d)
  {
    hide DelayOk, DelayDrop, ToReady, WakeFirst, Queued;
    var t, c1 := c.List(h)[0], WakeFirst(c, h);
    WokenFields(c, h);
    DropKeepsOthers(c.d, t);
    ReadyLine(c1, t);
    MadeReady(c1, t);
  }

  lemma MadeReady(c: Core, t: Ptr)
    ensures ToReady(c, t).state == c.state[t := READY]
  {
    hide InsertPos, Put;
  }

  lemma MoreWoken(c: Core, c1: Core, c2: Core, h: Ptr)
    requires c.List(h) != [] && FirstWoken(c, c1, h) && AllWoken(c1, c2, h)
    ensures AllWoken(c, c2, h)
  {
    var t, s := c.List(h)[0], c.List(h);
    assert s == [t] + s[1..];
    assert forall x :: x in s <==> x == t || x in s[1..];
    forall x | x in s
      ensures Up(c2.State(x))
    {
      var _ := c1.State(x);
    }
    forall x | x !in s
      ensures c2.State(x) == c.State(x) || (Up(c.State(x)) && Up(c2.State(x)))
    {
      var _ := c1.State(x);
    }
  }

  lemma {:induction false} ResultsForAll(ret: map<Ptr, Ret>, s: seq<Ptr>, r: Ret)
    ensures forall x :: x in RetAll(ret, s, r) <==> x in ret || x in s
    ensures forall x :: x in RetAll(ret, s, r) ==> RetAll(ret, s, r)[x] == if x in s then r else ret[x]
    decreases |s|
  {
    if s != [] {
      assert s == [s[0]] + s[1..];
      ResultsForAll(ret[s[0] := r], s[1..], r);
    }
  }

  /** A deletion wakes every waiter with result 0, and leaves a control block of no type. */
  ghost predicate Deleted(k: KState, k': KState, h: Ptr) {
    && AllWoken(k.c, k'.c, h) && k'.c.kind == k.c.kind[h := TCB]
    && (forall x :: x in k.List(h) ==> At(k'.ret, x, Code(OS_R_OK)) == Val(0))
    && (forall x :: x !in k.List(h) && x != k.c.run ==> At(k'.ret, x, Code(OS_R_OK)) == At(k.ret, x, Code(OS_R_OK)))
    && At(k'.ret, k.c.run, Val(0)) == Code(OS_R_OK)
  }

  lemma PreemptState(c: Core, x: Ptr)
    ensures var r := Commit(PreemptCheck(c));
            r.State(x) == c.State(x) || (x == c.run && Up(r.State(x))) || (c.Ready() != [] && x == c.Ready()[0] && Up(r.State(x)))
  {
  }

  lemma DiscardDeletes(k: KState, h: Ptr)
    requires AtRest(k.c) && h != RDY && (forall i :: 0 <= i < |k.List(h)| ==> k.List(h)[i] != k.c.run)
    requires forall x :: x in WakeAll(k.c, h).Ready() ==> Up(WakeAll(k.c, h).State(x))
    ensures var r := Discard(k, h); Deleted(k, r.(c := Commit(r.c)), h)
  {
    hide AtRest, WakeAll, PreemptCheck, AllWoken, RetAll, Up;
    ResultsForAll(k.ret, k.List(h), Val(0));
    var r, c2 := Discard(k, h), Commit(PreemptCheck(WakeAll(k.c, h)));
    DiscardCore(k.c, h);
    assert Commit(r.c) == c2.(kind := c2.kind[h := TCB]);
    Retyped(k.c, c2, h);
  }

  lemma DiscardCore(c: Core, h: Ptr)
    requires AtRest(c) && h != RDY && (forall x :: x in WakeAll(c, h).Ready() ==> Up(WakeAll(c, h).State(x)))
    ensures var c2 := Commit(PreemptCheck(WakeAll(c, h))); AllWoken(c, c2, h) && c2.kind == c.kind
  {
    hide AtRest, WakeAll, PreemptCheck, AllWoken, DelayOk, Up;
    RestDelays(c);
    AtRestNext(c);
    WakesAll(c, h);
    var c1 := WakeAll(c, h);
    var c2 := Commit(PreemptCheck(c1));
    PreemptLine(c1);
    forall x
      ensures c2.State(x) == c1.State(x) || (Up(c1.State(x)) && Up(c2.State(x)))
    {
      PreemptState(c1, x);
      RunUp(c, c1, h);
    }
    StillWoken(c, c1, c2, h);
  }

  lemma RunUp(c: Core, c1: Core, h: Ptr)
    requires AtRest(c) && AllWoken(c, c1, h) && c1.run == c.run
    ensures Up(c1.State(c1.run))
  {
    hide AtRest;
    RestDelays(c);
  }

  lemma StillWoken(c: Core, c1: Core, c2: Core, h: Ptr)
    requires AllWoken(c, c1, h) && c2 == c1.(g := c2.g, state := c2.state, run := c2.run, next := c2.next) && h != RDY
    requires forall x :: x != RDY ==> c2.List(x) == c1.List(x)
    requires forall x :: c2.State(x) == c1.State(x) || (Up(c1.State(x)) && Up(c2.State(x)))
    ensures AllWoken(c, c2, h)
  {
    forall x | x !in c.List(h)
      ensures c2.State(x) == c.State(x) || (Up(c.State(x)) && Up(c2.State(x)))
    {
      var _ := c1.State(x);
    }
  }

  lemma Retyped(c: Core, c2: Core, h: Ptr)
    requires AllWoken(c, c2, h)
    ensures AllWoken(c, c2.(kind := c2.kind[h := TCB]), h)
  {
    var r := c2.(kind := c2.kind[h := TCB]);
    assert forall x :: r.List(x) == c2.List(x) && r.State(x) == c2.State(x);
  }

  /** rt_sem_delete */
  lemma SemaphoreDeleted(k: KState, h: Ptr)
    requires KInv(k) && Legal(k, DeleteSem(h))
    ensures Deleted(k, Do(k, DeleteSem(h)), h)
  {
    hide KInv, AtRest, Discard, Legal, Deleted;
    KInvObjects(k);
    ObjectNotReady(k, h);
    WaitersReady(k.c, h);
    DiscardDeletes(k, h);
  }

  lemma ObjectNotReady(k: KState, h: Ptr)
    requires AtRest(k.c) && (Legal(k, DeleteSem(h)) || Legal(k, DeleteMut(h)) || Legal(k, ReleaseMut(h)))
    ensures h != RDY && h in k.c.g.lists && forall i :: 0 <= i < |k.List(h)| ==> k.List(h)[i] != k.c.run
  {
    hide InOrder, Sorted, NoDup, Fields, Typed;
    assert Placed(k.c, k.c.run);
  }

  lemma WaitersReady(c: Core, h: Ptr)
    requires AtRest(c) && h in c.g.lists && h != RDY
    ensures forall x :: x in WakeAll(c, h).Ready() ==> Up(WakeAll(c, h).State(x))
  {
    hide AtRest, WakeAll, Sched;
    SettledSched(c);
    WakeAllKeeps(c, c.run, h);
    ReadyAllUp(WakeAll(c, h), c.run);
  }

  lemma ReadyAllUp(c: Core, cur: Ptr)
    requires Sched(c, {}, cur)
    ensures forall x :: x in c.Ready() ==> Up(c.State(x))
  {
    forall x | x in c.Ready()
      ensures Up(c.State(x))
    {
      var i :| 0 <= i < |c.g.lists[RDY]| && c.g.lists[RDY][i] == x;
      assert Placed(c, x);
    }
  }
}
