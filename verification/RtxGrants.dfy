/** What the calls on mutexes and mailboxes grant, refuse and hand over. */
module RtxGrants {
  import opened Links
  import opened TaskLists
  import opened RtxOrder
  import opened Delays
  import opened RtxList
  import opened RtxSched
  import opened RtxPlaces
  import opened RtxRest
  import opened RtxSpec
  import opened RtxObjects
  import opened RtxFrames
  import opened RtxFacts
  import opened RtxWaits
  import opened RtxMail
  import opened RtxInherit
  import RtxCounts
  import opened RtxKeeps
  import opened EventBits
  import opened RtxTimes
  import opened RtxEvents
  import opened RtxEffects

  // ----- mutexes

  /**
   * A lock that need not wait: a free mutex is the caller's, with the priority that it has now saved, its owner nests,
   * and with a time-out of 0 anybody else is refused.
   */
  lemma LockGrants(k: KState, m: Ptr, n: nat)
    requires KInv(k) && Legal(k, WaitMut(m, n)) && !Waits(k, WaitMut(m, n))
    ensures var mu, run := At(k.mut, m, FREE), k.c.run;
            Do(k, WaitMut(m, n)) ==
            if mu.level == 0 then k.(mut := k.mut[m := Mutex(k.c.Prio(run), 1, run)], ret := k.ret[run := Code(OS_R_OK)])
            else if mu.owner == run
            then k.(mut := k.mut[m := Mutex(mu.prio, (mu.level + 1) % 0x1_0000, run)], ret := k.ret[run := Code(OS_R_OK)])
            else k.(ret := k.ret[run := Code(OS_R_TMO)])
  {
    hide KInv, AtRest, Legal, BlockOn, Reprio;
    KInvObjects(k);
    AtRestNext(k.c);
  }

  /** A lock that waits: the owner gets the caller's priority exactly if its saved one is lower. */
  lemma LockRaises(k: KState, m: Ptr, n: nat)
    requires KInv(k) && Legal(k, WaitMut(m, n)) && Waits(k, WaitMut(m, n))
    ensures var k', mu, p := Do(k, WaitMut(m, n)), At(k.mut, m, FREE), k.c.Prio(k.c.run);
            && k'.c.prio == (if mu.prio < p then k.c.prio[mu.owner := p] else k.c.prio)
            && k' == k.(c := k'.c, ret := k.ret[k.c.run := Code(OS_R_TMO)])
            && forall x :: x in k'.List(m) <==> x == k.c.run || x in k.List(m)
  {
    hide KInv, AtRest, Legal, BlockOn, Reprio, Sched;
    var mu, run, p := At(k.mut, m, FREE), k.c.run, k.c.Prio(k.c.run);
    var c := if mu.prio < p then Reprio(k.c, mu.owner, p) else k.c;
    KInvObjects(k);
    SettledSched(k.c);
    MutexPlace(k, m, n);
    ReprioFields(k.c, mu.owner, p);
    SchedSeparate(k.c, {}, k.c.run);
    ReprioWaiters(k.c, mu.owner, p, m);
    BlockWaiters(k.(c := c), m, n);
    BlockOnFrame(k.(c := c), m, n, WAIT_MUT);
    BlockedResult(k.(c := c), m, n);
    var r := BlockOn(k.(c := c), m, n, WAIT_MUT);
    assert Do(k, WaitMut(m, n)) == r.(c := Commit(r.c));
    assert Commit(r.c).List(m) == r.List(m) && k.(c := c).List(m) == c.List(m);
  }

  lemma BlockedResult(k: KState, m: Ptr, n: nat)
    ensures BlockOn(k, m, n, WAIT_MUT).ret == k.ret[k.c.run := Code(OS_R_TMO)]
  {
    hide Block;
  }

  lemma MutexPlace(k: KState, m: Ptr, n: nat)
    requires Legal(k, WaitMut(m, n))
    ensures m != RDY
  {
  }

  lemma SchedSeparate(c: Core, hands: set<Ptr>, cur: Ptr)
    requires Sched(c, hands, cur)
    ensures Separate(c.g)
  {
  }

  /** Only the owner can release; a release but the last one only takes one level off. */
  lemma ReleaseCounts(k: KState, m: Ptr)
    requires KInv(k) && Legal(k, ReleaseMut(m))
    requires At(k.mut, m, FREE).level != 1 || At(k.mut, m, FREE).owner != k.c.run
    ensures var mu, run := At(k.mut, m, FREE), k.c.run;
            Do(k, ReleaseMut(m)) ==
            if mu.level == 0 || mu.owner != run then k.(ret := k.ret[run := Code(OS_R_NOK)])
            else k.(mut := k.mut[m := Mutex(mu.prio, mu.level - 1, run)], ret := k.ret[run := Code(OS_R_OK)])
  {
    hide KInv, AtRest, Legal, HandOver, PreemptCheck;
    KInvObjects(k);
    AtRestNext(k.c);
  }

  /**
   * The last release without waiters: the mutex is free, and the caller gets back the priority that the mutex has saved,
   * with which it gives way exactly to a more urgent ready task.
   */
  lemma LastReleaseFrees(k: KState, m: Ptr)
    requires KInv(k) && Legal(k, ReleaseMut(m)) && k.List(m) == []
    requires At(k.mut, m, FREE).level == 1 && At(k.mut, m, FREE).owner == k.c.run
    ensures var k', s, p := Do(k, ReleaseMut(m)), k.c.Ready(), At(k.mut, m, FREE).prio;
            && k' == k.(c := k'.c, mut := k.mut[m := Mutex(p, 0, k.c.run)], ret := k.ret[k.c.run := Code(OS_R_OK)])
            && k'.c.prio == k.c.prio[k.c.run := p] && k'.c.d == k.c.d && k'.c.active == k.c.active
            && (if s != [] && At(k'.c.prio, s[0], 0) > p then Queued(k'.c.prio, s, Line(k'.c), k.c.run)
                else Line(k'.c) == Line(k.c))
            && forall h :: h != RDY ==> k'.List(h) == k.List(h)
  {
    hide KInv, AtRest, Legal, PreemptCheck, HandOver;
    KInvObjects(k);
    AtRestNext(k.c);
    PreemptLine(k.c.(prio := k.c.prio[k.c.run := At(k.mut, m, FREE).prio]));
  }

  /** Locking a free mutex and releasing it again leaves everything as it was, but for who is noted as its last owner. */
  lemma LockThenRelease(k: KState, m: Ptr, n: nat)
    requires KInv(k) && Legal(k, WaitMut(m, n)) && At(k.mut, m, FREE).level == 0
    ensures var k' := Do(Do(k, WaitMut(m, n)), ReleaseMut(m));
            k' == k.(mut := k.mut[m := Mutex(k.c.Prio(k.c.run), 0, k.c.run)], ret := k.ret[k.c.run := Code(OS_R_OK)])
  {
    hide KInv, AtRest, Legal, Do, Apply;
    KInvObjects(k);
    RestFacts(k.c);
    FreeUnwaited(k, m, n);
    LockGrants(k, m, n);
    ReleasesOnly(k.(mut := k.mut[m := Mutex(k.c.Prio(k.c.run), 1, k.c.run)], ret := k.ret[k.c.run := Code(OS_R_OK)]), m);
  }

  /** The release of a mutex with nobody waiting and the caller's priority unchanged. */
  lemma ReleasesOnly(k: KState, m: Ptr)
    requires AtRest(k.c) && k.c.run in k.c.prio && k.List(m) == [] && At(k.mut, m, FREE) == Mutex(k.c.Prio(k.c.run), 1, k.c.run)
    ensures Do(k, ReleaseMut(m)) ==
            k.(mut := k.mut[m := Mutex(k.c.Prio(k.c.run), 0, k.c.run)], ret := k.ret[k.c.run := Code(OS_R_OK)])
  {
    hide AtRest, PreemptCheck, HandOver;
    AtRestNext(k.c);
    assert k.c.prio[k.c.run := k.c.prio[k.c.run]] == k.c.prio;
    NobodyAhead(k.c);
  }

  lemma FreeUnwaited(k: KState, m: Ptr, n: nat)
    requires KInv(k) && Legal(k, WaitMut(m, n)) && At(k.mut, m, FREE).level == 0
    ensures k.List(m) == []
  {
    assert ObjectOk(k, m);
  }

  lemma NobodyAhead(c: Core)
    requires AtRest(c)
    ensures PreemptCheck(c) == c
  {
    hide AtRest, DispatchNext;
    if c.Ready() != [] {
      RunLeads(c, 0);
    }
  }

  /**
   * The last release with waiters: the caller gets back its saved priority, and the first waiter gets the mutex, with its
   * own priority saved. It competes with the caller, which may have to go behind more urgent ready tasks first.
   */
  lemma LastReleaseHands(k: KState, m: Ptr)
    requires KInv(k) && Legal(k, ReleaseMut(m)) && k.List(m) != []
    requires At(k.mut, m, FREE).level == 1 && At(k.mut, m, FREE).owner == k.c.run
    ensures var k', s, t, p := Do(k, ReleaseMut(m)), k.c.Ready(), k.List(m)[0], At(k.mut, m, FREE).prio;
            && k'.mut == k.mut[m := Mutex(k.c.Prio(t), 1, t)] && k'.ret == k.ret[k.c.run := Code(OS_R_OK)][t := Val(0)]
            && k' == k.(c := k'.c, mut := k'.mut, ret := k'.ret)
            && k'.c.prio == k.c.prio[k.c.run := p] && k'.c.active == k.c.active
            && (forall x, r :: Delay(x, r) in k'.c.d <==> Delay(x, r) in k.c.d && x != t)
            && k'.List(m) == k.List(m)[1..] && (forall h :: h != RDY && h != m ==> k'.List(h) == k.List(h))
            && Up(k'.c.State(t))
            && if s != [] && At(k'.c.prio, s[0], 0) > p
               then exists s1 :: Queued(k'.c.prio, s, s1, k.c.run) && Queued(k'.c.prio, s1, Line(k'.c), t)
               else Queued(k'.c.prio, Line(k.c), Line(k'.c), t)
  {
    hide KInv, AtRest, Legal, HandTo, WakeFirst, Queued, Up, DelayDrop, DelayOk;
    var t, p := k.List(m)[0], At(k.mut, m, FREE).prio;
    KInvObjects(k);
    AtRestNext(k.c);
    RestDelays(k.c);
    MutexApart(k, m);
    HandsFields(k, m);
    var c1 := k.c.(prio := k.c.prio[k.c.run := p]);
    WokenFields(c1, m);
    DropKeepsOthers(k.c.d, t);
    HandLine(WakeFirst(c1, m), t);
  }

  lemma MutexApart(k: KState, m: Ptr)
    requires AtRest(k.c) && Legal(k, ReleaseMut(m))
    ensures m != RDY && (k.List(m) != [] ==> k.List(m)[0] != k.c.run)
  {
    assert Placed(k.c, k.c.run);
  }

  /** The last release with waiters, as the scheduler sees it. */
  lemma HandsFields(k: KState, m: Ptr)
    requires k.List(m) != [] && At(k.mut, m, FREE).level == 1 && At(k.mut, m, FREE).owner == k.c.run && k.List(m)[0] != k.c.run
    ensures var k', t := Do(k, ReleaseMut(m)), k.List(m)[0];
            var c1 := k.c.(prio := k.c.prio[k.c.run := At(k.mut, m, FREE).prio]);
            && k'.mut == k.mut[m := Mutex(k.c.Prio(t), 1, t)] && k'.ret == k.ret[k.c.run := Code(OS_R_OK)][t := Val(0)]
            && k' == k.(c := k'.c, mut := k'.mut, ret := k'.ret)
            && c1.List(m) == k.List(m) && k'.c == Commit(HandTo(WakeFirst(c1, m), t))
  {
    hide HandTo, WakeFirst, PreemptCheck;
    var mu := At(k.mut, m, FREE);
    assert k.mut[m := mu.(level := 0)][m := Mutex(k.c.Prio(k.List(m)[0]), 1, k.List(m)[0])] ==
           k.mut[m := Mutex(k.c.Prio(k.List(m)[0]), 1, k.List(m)[0])];
  }

  lemma HandLine(c: Core, t: Ptr)
    requires c.next == c.run && t != c.run
    ensures var r := Commit(HandTo(c, t));
            && r == c.(g := r.g, state := r.state, run := r.run, next := r.next) && Up(r.State(t))
            && (forall h :: h != RDY ==> r.List(h) == c.List(h))
            && if c.Ready() != [] && c.Prio(c.run) < c.Prio(c.Ready()[0])
               then exists s1 :: Queued(c.prio, c.Ready(), s1, c.run) && Queued(c.prio, s1, Line(r), t)
               else Queued(c.prio, Line(c), Line(r), t)
  {
    hide Dispatch, ToReady, DispatchNext, Queued;
    if c.Ready() != [] && c.Prio(c.run) < c.Prio(c.Ready()[0]) {
      var c1 := ToReady(c, c.run);
      var c2 := ToReady(c1, t);
      ReadyLine(c, c.run);
      ReadyLine(c1, t);
      MadeReady(c1, t);
      SomeReady(c1, t);
      NextLine(c2);
      NextUp(c2, t);
      assert Queued(c.prio, c.Ready(), c1.Ready(), c.run);
    } else {
      DispatchLine(c, t);
    }
  }

  lemma SomeReady(c: Core, t: Ptr)
    ensures ToReady(c, t).Ready() != []
  {
    hide InsertPos;
  }

  lemma NextUp(c: Core, t: Ptr)
    requires c.Ready() != []
    ensures Commit(DispatchNext(c)).State(t) == c.State(t) || Up(Commit(DispatchNext(c)).State(t))
  {
  }

  /** A deleted mutex gives its owner the saved priority back, and all waiters wake. */
  lemma MutexDeleted(k: KState, m: Ptr)
    requires KInv(k) && Legal(k, DeleteMut(m))
    ensures var k', mu := Do(k, DeleteMut(m)), At(k.mut, m, FREE);
            && k'.c.prio == (if mu.level != 0 then k.c.prio[mu.owner := mu.prio] else k.c.prio)
            && k'.List(m) == [] && k'.c.kind == k.c.kind[m := TCB]
            && forall x :: x in k.List(m) ==> At(k'.ret, x, Code(OS_R_OK)) == Val(0) && Up(k'.c.State(x))
  {
    hide KInv, AtRest, Discard, Legal, Reprio, AllWoken, Sched, WakeAll, PreemptCheck;
    var mu := At(k.mut, m, FREE);
    KInvObjects(k);
    SettledSched(k.c);
    DeletedPlace(k, m);
    SchedSeparate(k.c, {}, k.c.run);
    var c := if mu.level != 0 then Reprio(k.c, mu.owner, mu.prio) else k.c;
    ReprioWaiters(k.c, mu.owner, mu.prio, m);
    ReprioFields(k.c, mu.owner, mu.prio);
    RestDelays(k.c);
    assert k.(c := c).List(m) == c.List(m) && k.List(m) == k.c.List(m);
    DiscardWakes(k.(c := c), m);
  }

  lemma DeletedPlace(k: KState, m: Ptr)
    requires Legal(k, DeleteMut(m)) && AtRest(k.c)
    ensures m != RDY && forall x :: x in k.List(m) ==> x != k.c.run
  {
    assert Placed(k.c, k.c.run);
  }

  lemma DiscardWakes(k: KState, h: Ptr)
    requires DelayOk(k.c.d) && h != RDY && k.c.next == k.c.run && (forall x :: x in k.List(h) ==> x != k.c.run)
    ensures var r := Discard(k, h);
            && Commit(r.c).prio == k.c.prio && r.List(h) == [] && r.c.kind == k.c.kind[h := TCB]
            && forall x :: x in k.List(h) ==> At(r.ret, x, Code(OS_R_OK)) == Val(0) && Up(Commit(r.c).State(x))
  {
    hide WakeAll, PreemptCheck, AllWoken, DelayOk, RetAll, Up;
    WakesAll(k.c, h);
    ResultsForAll(k.ret, k.List(h), Val(0));
    var c1 := WakeAll(k.c, h);
    PreemptLine(c1);
    WokenFacts(k.c, c1, h);
    forall x | x in k.List(h)
      ensures Up(Commit(PreemptCheck(c1)).State(x))
    {
      PreemptState(c1, x);
    }
  }

  lemma WokenFacts(c: Core, c1: Core, h: Ptr)
    requires AllWoken(c, c1, h)
    ensures c1.prio == c.prio && c1.List(h) == [] && forall x :: x in c.List(h) ==> Up(c1.State(x))
  {
  }

  // ----- mailboxes

  /** A message for a waiting receiver: it gets it as its result and competes by its priority. */
  lemma SendWakes(k: KState, m: Ptr, y: int, n: nat)
    requires KInv(k) && Legal(k, SendMbx(m, y, n)) && k.List(m) != [] && At(k.mbx, m, NO_MAILBOX).count == 0
    ensures var k' := Do(k, SendMbx(m, y, n));
            k' == k.(c := k'.c, ret := k.ret[k.c.run := Code(OS_R_OK)][k.List(m)[0] := Message(y)]) && Woken(k.c, k'.c, m)
  {
    hide KInv, AtRest, Legal, Dispatch, WakeFirst, BlockOn, Store, Woken;
    KInvObjects(k);
    AtRestNext(k.c);
    MailboxHere(k, SendMbx(m, y, n), m);
    WokenLine(k.c, m);
  }

  lemma MailboxHere(k: KState, a: Call, m: Ptr)
    requires KInv(k) && Legal(k, a) && (a.SendMbx? || a.WaitMbx?) && a.obj == m
    ensures m != RDY && m in k.mbx && k.mbx[m].size >= 1
    ensures k.List(m) != [] ==> k.mbx[m].state == (if k.mbx[m].count == 0 then 1 else 2)
    ensures k.List(m) != [] ==> k.mbx[m].count == 0 || k.mbx[m].count == k.mbx[m].size
  {
    assert ObjectOk(k, m);
  }

  /** Without a waiting receiver a send stores the message if there is room, and is refused if there is none and n is 0. */
  lemma SendStoresOrFails(k: KState, m: Ptr, y: int, n: nat)
    requires KInv(k) && Legal(k, SendMbx(m, y, n)) && !(k.List(m) != [] && At(k.mbx, m, NO_MAILBOX).count == 0)
    requires !Waits(k, SendMbx(m, y, n))
    ensures var k', b := Do(k, SendMbx(m, y, n)), At(k.mbx, m, NO_MAILBOX);
            if b.count == b.size then k' == k.(ret := k.ret[k.c.run := Code(OS_R_TMO)])
            else k' == k.(mbx := k.mbx[m := At(k'.mbx, m, NO_MAILBOX)], ret := k.ret[k.c.run := Code(OS_R_OK)])
                 && At(k'.mbx, m, NO_MAILBOX).count == b.count + 1
  {
    hide KInv, AtRest, Legal, BlockOn, Wake;
    KInvObjects(k);
    AtRestNext(k.c);
    MailboxHere(k, SendMbx(m, y, n), m);
  }

  /**
   * A receive that need not wait: from an empty mailbox it fails, and otherwise it gets a message. Where a sender waits
   * for room, the first one is woken with result 0 and its message takes the place.
   */
  lemma ReceiveGets(k: KState, m: Ptr, n: nat)
    requires KInv(k) && Legal(k, WaitMbx(m, n)) && !Waits(k, WaitMbx(m, n))
    ensures var k', b, run := Do(k, WaitMbx(m, n)), At(k.mbx, m, NO_MAILBOX), k.c.run;
            if b.count == 0 then k' == k.(ret := k.ret[run := Code(OS_R_TMO)])
            else
              && run in k'.ret && k'.ret[run].Message? && m in k'.mbx
              && if k.List(m) != []
                 then k' == k.(c := k'.c, mbx := k.mbx[m := k'.mbx[m]], ret := k.ret[run := k'.ret[run]][k.List(m)[0] := Val(0)])
                      && Woken(k.c, k'.c, m) && k'.mbx[m].count == b.count
                 else k' == k.(mbx := k.mbx[m := k'.mbx[m]], ret := k.ret[run := k'.ret[run]])
                      && k'.mbx[m].count == b.count - 1
  {
    hide KInv, AtRest, Legal, MbxWait, Woken;
    KInvObjects(k);
    MailboxHere(k, WaitMbx(m, n), m);
    WaitApplies(k, WaitMbx(m, n));
    if At(k.mbx, m, NO_MAILBOX).count == 0 || k.List(m) == [] {
      PlainReceive(k, m);
      AtRestNext(k.c);
    } else {
      SenderApart(k.c, m);
      RefilledReceive(k, m, n);
      WokenLine(k.c, m);
    }
  }

  lemma PlainReceive(k: KState, m: Ptr)
    requires m in k.mbx && (k.mbx[m].count == 0 || k.List(m) == [])
    ensures k.mbx[m].count == 0 ==> MbxWait(k, m, 0) == k.(ret := k.ret[k.c.run := Code(OS_R_TMO)])
    ensures k.mbx[m].count > 0 ==> forall n ::
              var r := MbxWait(k, m, n);
              && k.c.run in r.ret && r.ret[k.c.run].Message? && m in r.mbx && r.mbx[m].count == k.mbx[m].count - 1
              && r == k.(mbx := k.mbx[m := r.mbx[m]], ret := k.ret[k.c.run := r.ret[k.c.run]])
  {
    hide Oldest, Step;
  }

  lemma RefilledReceive(k: KState, m: Ptr, n: nat)
    requires m in k.mbx && k.mbx[m].count > 0 && k.List(m) != [] && k.mbx[m].state == 2 && k.List(m)[0] != k.c.run
    ensures var r, t := MbxWait(k, m, n), k.List(m)[0];
            && k.c.run in r.ret && r.ret[k.c.run].Message? && m in r.mbx && r.mbx[m].count == k.mbx[m].count
            && r == k.(c := r.c, mbx := k.mbx[m := r.mbx[m]], ret := k.ret[k.c.run := r.ret[k.c.run]][t := Val(0)])
            && r.c == Dispatch(WakeFirst(k.c, m), t)
  {
    hide Oldest, Step, Dispatch, WakeFirst;
  }

  lemma SenderApart(c: Core, m: Ptr)
    requires AtRest(c) && m != RDY && c.List(m) != []
    ensures c.List(m)[0] != c.run
  {
    assert Placed(c, c.run);
  }

  // ----- waiting

  /** A caller that has to wait makes way for the ready tasks, and queues by its priority on the object that it waits for. */
  ghost predicate MakesWay(c: Core, c': Core, h: Ptr) {
    && Line(c') == c.Ready() && c'.prio == c.prio
    && (h != NULL ==> Queued(c.prio, c.List(h), c'.List(h), c.run))
    && forall x :: x != RDY && x != h ==> c'.List(x) == c.List(x)
  }

  lemma BlockMakesWay(c: Core, n: nat, st: TaskState)
    requires c.Ready() != [] && n > 0
    ensures var r := Commit(Block(c, n, st));
            Line(r) == c.Ready() && r.prio == c.prio && forall x :: x != RDY ==> r.List(x) == c.List(x)
  {
    hide DelayPut, DispatchNext;
    NextLine(c.(d := if n < NO_TIMEOUT then DelayPut(c.d, c.run, n) else c.d, state := c.state[c.run := st]));
  }

  lemma BlockOnMakesWay(k: KState, h: Ptr, n: nat, st: TaskState)
    requires k.c.Ready() != [] && n > 0 && h != RDY && h != NULL
    ensures MakesWay(k.c, Commit(BlockOn(k, h, n, st).c), h)
  {
    hide Block, InsertPos, Ins;
    Enters(k.c.prio, k.List(h), k.c.run);
    BlockMakesWay(QueueRun(k.c, h), n, st);
  }

  /** The same for a mutex whose owner is not raised; LockRaises tells what raising does. */
  lemma WaiterMakesWay(k: KState, a: Call)
    requires KInv(k) && Legal(k, a) && Waits(k, a)
    requires a.WaitMut? ==> At(k.mut, a.obj, FREE).prio >= k.c.Prio(k.c.run)
    ensures MakesWay(k.c, Do(k, a).c, Awaited(a))
    ensures !a.Wait? ==> Do(k, a).ret == k.ret[k.c.run := Code(OS_R_TMO)]
  {
    hide KInv, AtRest, Apply, MakesWay, BlockOn, Block, SemWait, MutWait, EvtWait, MbxSend, MbxWait, AllSet, SomeSet;
    KInvObjects(k);
    RestFacts(k.c);
    RunIsActive(k, a);
    WaitApplies(k, a);
    match a {
      case Wait(n) => PlainWait(k, n, WAIT_DLY);
      case WaitSem(h, n) =>
        SemWaitBlocks(k, h, n);
        BlockOnMakesWay(k, h, n, WAIT_SEM);
        ResultIsTimeOut(k, h, n, WAIT_SEM);
      case WaitMut(m, n) =>
        MutWaitBlocks(k, m, n);
        BlockOnMakesWay(k, m, n, WAIT_MUT);
        ResultIsTimeOut(k, m, n, WAIT_MUT);
      case WaitEvt(flags, n, and) =>
        EvtWaitBlocks(k, flags, n, and);
        PlainWait(k, n, if and then WAIT_AND else WAIT_OR);
      case SendMbx(m, y, n) => SendBlocksOn(k, m, y, n);
      case WaitMbx(m, n) => ReceiveBlocksOn(k, m, n);
    }
  }

  lemma PlainWait(k: KState, n: nat, st: TaskState)
    requires k.c.Ready() != [] && n > 0
    ensures MakesWay(k.c, Commit(Block(k.c, n, st)), NULL)
  {
    hide Block;
    BlockMakesWay(k.c, n, st);
  }

  lemma ResultIsTimeOut(k: KState, h: Ptr, n: nat, st: TaskState)
    ensures BlockOn(k, h, n, st).ret == k.ret[k.c.run := Code(OS_R_TMO)]
  {
    hide Block, QueueRun;
  }

  lemma SemWaitBlocks(k: KState, h: Ptr, n: nat)
    requires Waits(k, WaitSem(h, n)) && Legal(k, WaitSem(h, n))
    ensures SemWait(k, h, n) == BlockOn(k, h, n, WAIT_SEM) && n > 0 && h != RDY
  {
    hide BlockOn;
  }

  lemma MutWaitBlocks(k: KState, m: Ptr, n: nat)
    requires Waits(k, WaitMut(m, n)) && Legal(k, WaitMut(m, n)) && At(k.mut, m, FREE).prio >= k.c.Prio(k.c.run)
    ensures MutWait(k, m, n) == BlockOn(k, m, n, WAIT_MUT) && n > 0 && m != RDY
  {
    hide BlockOn, Reprio;
    assert k.(c := k.c) == k;
  }

  lemma EvtWaitBlocks(k: KState, flags: bv16, n: nat, and: bool)
    requires Waits(k, WaitEvt(flags, n, and))
    ensures n > 0 && EvtWait(k, flags, n, and).c == Block(k.c, n, if and then WAIT_AND else WAIT_OR)
    ensures EvtWait(k, flags, n, and).ret == k.ret[k.c.run := Code(OS_R_TMO)]
  {
    hide Block, HasAll, HasAny, AllSet, SomeSet, Without, Common;
    HasAllBits(At(k.events, k.c.run, 0), flags);
    HasAnyBits(At(k.events, k.c.run, 0), flags);
  }

  lemma SendBlocksOn(k: KState, m: Ptr, y: int, n: nat)
    requires Waits(k, SendMbx(m, y, n)) && Legal(k, SendMbx(m, y, n)) && k.c.Ready() != [] && m != NULL
    ensures MakesWay(k.c, Commit(MbxSend(k, m, y, n).c), m) && MbxSend(k, m, y, n).ret == k.ret[k.c.run := Code(OS_R_TMO)]
  {
    hide BlockOn, MakesWay, Store, Wake;
    var b := At(k.mbx, m, NO_MAILBOX);
    var k1 := k.(mbx := k.mbx[m := if k.List(m) == [] then b.(state := 2) else b], msg := k.msg[k.c.run := y]);
    BlockOnMakesWay(k1, m, n, WAIT_MBX);
    ResultIsTimeOut(k1, m, n, WAIT_MBX);
  }

  lemma ReceiveBlocksOn(k: KState, m: Ptr, n: nat)
    requires Waits(k, WaitMbx(m, n)) && Legal(k, WaitMbx(m, n)) && k.c.Ready() != [] && m != NULL
    ensures MakesWay(k.c, Commit(MbxWait(k, m, n).c), m) && MbxWait(k, m, n).ret == k.ret[k.c.run := Code(OS_R_TMO)]
  {
    hide BlockOn, MakesWay, Store, Wake, Oldest;
    var b := At(k.mbx, m, NO_MAILBOX);
    var k1 := k.(mbx := k.mbx[m := if k.List(m) == [] then b.(state := 1) else b]);
    BlockOnMakesWay(k1, m, n, WAIT_MBX);
    ResultIsTimeOut(k1, m, n, WAIT_MBX);
  }

  /** A task whose wait for event flags ends competes by its priority. */
  lemma EventCompetes(k: KState, t: Ptr, flags: bv16)
    requires KInv(k) && Legal(k, SetEvt(t, flags)) && t in k.c.active && Ends(k, t, flags)
    ensures var k' := Do(k, SetEvt(t, flags));
            && Queued(k.c.prio, Line(k.c), Line(k'.c), t) && k'.c.prio == k.c.prio
            && forall h :: h != RDY ==> k'.List(h) == k.List(h)
  {
    hide KInv, AtRest, Dispatch, Signal, Completes, Ends, DelayDrop, Queued;
    KInvObjects(k);
    AtRestNext(k.c);
    EndsIsCompletes(k, t, flags);
    SignalDelay(k, t, flags);
    var c1 := k.c.(d := DelayDrop(k.c.d, t));
    DispatchLine(c1, t);
    assert Line(c1) == Line(k.c);
  }

  /** A new semaphore has the given tokens, a new mutex is free, and a new mailbox is empty and has room for size messages. */
  lemma NewObjects(k: KState, h: Ptr, n: nat)
    requires KInv(k) && IsObject(k, h, TCB)
    ensures Do(k, InitSem(h, n)) == k.(c := k.c.(kind := k.c.kind[h := SCB]), tokens := k.tokens[h := n])
    ensures Do(k, InitMut(h)) == k.(c := k.c.(kind := k.c.kind[h := MUCB]), mut := k.mut[h := Mutex(0, 0, NULL)])
    ensures var k' := Do(k, InitMbx(h, n));
            && k' == k.(c := k.c.(kind := k.c.kind[h := MCB]), mbx := k.mbx[h := At(k'.mbx, h, NO_MAILBOX)])
            && At(k'.mbx, h, NO_MAILBOX).count == 0 && At(k'.mbx, h, NO_MAILBOX).size == n
  {
    hide KInv, AtRest;
    KInvObjects(k);
    AtRestNext(k.c);
  }

  /** A delay of 0 ticks does nothing. */
  lemma NoDelay(k: KState)
    requires KInv(k)
    ensures Do(k, Wait(0)) == k
  {
    hide KInv, AtRest;
    KInvObjects(k);
    AtRestNext(k.c);
  }

  /** A tick advances the 32-bit clock by one; no other call does. */
  lemma ClockTicks(k: KState, a: Call)
    ensures Do(k, a).time == if a == SysTick then (k.time + 1) % 0x1_0000_0000 else k.time
  {
    hide Apply, Do;
    if a == SysTick {
      TickTime(k);
    } else {
      CallFrame(k, a);
    }
  }

  lemma TickTime(k: KState)
    ensures Do(k, SysTick).time == (k.time + 1) % 0x1_0000_0000
  {
    hide ChkRobin, ReadyAt, DecDly, DispatchNext;
    ChkRobinFrame(k.(c := ReadyAt(k.c, 0, k.c.run)));
  }
}
