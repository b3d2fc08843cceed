/** Requests queued by interrupt handlers have the same effect as the calls they stand for. */
module RtxIsr {
  import opened Links
  import opened TaskLists
  import opened RtxOrder
  import opened Delays
  import opened RtxList
  import opened RtxSched
  import opened RtxPlaces
  import opened RtxRest
  import opened RtxSpec
  import opened RtxObjects

  /** The call a request stands for, made by the running task, and the context switch after it. */
  ghost function ThreadStep(k: KState, q: Request): (r: KState) {
    var k1 := match q case SemReq(h) => SemSend(k, h) case EvtReq(t, flags) => EvtSet(k, t, flags);
    k1.(c := Commit(k1.c))
  }

  ghost function ThreadAll(k: KState, qs: seq<Request>): (r: KState)
    decreases |qs|
  {
    if qs == [] then k else ThreadAll(ThreadStep(k, qs[0]), qs[1..])
  }

  /** The core without os_tsk. */
  ghost function Blank(c: Core): (r: Core) {
    c.(run := NULL, next := NULL)
  }

  /** The running task put in front of the ready list, as rt_pop_req does first. */
  ghost function Front(c: Core): (r: Core) {
    Blank(ReadyAt(c, 0, c.run))
  }

  /** rt_dispatch(t) is insertion of t by priority into the running task followed by the ready list. */
  lemma DispatchIsInsertion(c: Core, t: Ptr)
    requires t != c.run && c.next == c.run
    ensures Front(Commit(Dispatch(c, t))) == Blank(ToReady(ReadyAt(c, 0, c.run), t))
  {
    hide ReadyAt, ToReady;
    if c.Prio(t) > c.Prio(c.run) {
      PreemptIsInsertion(c, t);
    } else {
      ReadyIsInsertion(c, t);
      ToReadyRun(c, t);
    }
  }

  lemma ToReadyRun(c: Core, t: Ptr)
    ensures ToReady(c, t).run == c.run && ToReady(c, t).next == c.next
  {
  }

  lemma PreemptIsInsertion(c: Core, t: Ptr)
    requires t != c.run && c.Prio(t) > c.Prio(c.run)
    ensures Front(Commit(Switch(ReadyAt(c, 0, c.run), t))) == Blank(ToReady(ReadyAt(c, 0, c.run), t))
  {
    var c1 := ReadyAt(c, 0, c.run);
    assert c1.Ready()[0] == c.run;
    assert InsertPos(c.prio, c1.Ready(), c.Prio(t)) == 0;
    assert c1.state[t := RUNNING][t := READY] == c1.state[t := READY];
  }

  lemma ReadyIsInsertion(c: Core, t: Ptr)
    requires t != c.run && c.Prio(t) <= c.Prio(c.run)
    ensures Blank(ReadyAt(ToReady(c, t), 0, c.run)) == Blank(ToReady(ReadyAt(c, 0, c.run), t))
  {
    hide Put, InsertPos;
    var run, i := c.run, InsertPos(c.prio, c.Ready(), c.Prio(t));
    PutSwap(c.g, run, t, i);
    PosFront(c.prio, c.Ready(), run, c.Prio(t));
    assert c.state[t := READY][run := READY] == c.state[run := READY][t := READY];
  }

  lemma PutSwap(g: Shape, run: Ptr, t: Ptr, i: nat)
    requires t != run && i <= |At(g.lists, RDY, [])|
    ensures At(Put(g, RDY, 0, run).lists, RDY, []) == [run] + At(g.lists, RDY, [])
    ensures Put(Put(g, RDY, i, t), RDY, 0, run) == Put(Put(g, RDY, 0, run), RDY, i + 1, t)
  {
    var s := At(g.lists, RDY, []);
    assert Ins(s, 0, run) == [run] + s;
    assert Ins(Ins(s, i, t), 0, run) == Ins([run] + s, i + 1, t);
    var l, r := Put(Put(g, RDY, i, t), RDY, 0, run), Put(Put(g, RDY, 0, run), RDY, i + 1, t);
    assert l.lists == r.lists;
    assert l.on == r.on;
    assert l.stale == r.stale;
  }

  lemma PosFront(prio: map<Ptr, nat>, s: seq<Ptr>, run: Ptr, p: nat)
    requires p <= At(prio, run, 0)
    ensures InsertPos(prio, [run] + s, p) == 1 + InsertPos(prio, s, p)
  {
    assert ([run] + s)[1..] == s;
  }

  /** Putting the running task in front and taking it back changes nothing. */
  lemma FrontAndBack(c: Core)
    requires AtRest(c)
    ensures Front(c).Ready() != [] && Commit(DispatchNext(Front(c))) == c
  {
    hide Sched, Tops;
    RunInTasks(c);
    var s, run := c.Ready(), c.run;
    var l := Commit(DispatchNext(Front(c)));
    assert Ins(s, 0, run) == [run] + s;
    assert Front(c).Ready() == [run] + s;
    assert ([run] + s)[1..] == s;
    assert l.g.lists == c.g.lists;
    assert l.g.on == c.g.on;
    assert l.g.stale == c.g.stale;
    assert l.state == c.state;
  }

  lemma RunInTasks(c: Core)
    requires AtRest(c)
    ensures RDY in c.g.lists && c.run in c.g.tasks && c.run in c.g.on && c.g.on[c.run] == NULL && c.run !in c.g.stale
    ensures c.run in c.state && c.state[c.run] == RUNNING && c.run == c.next && c.run != NULL
  {
    assert Placed(c, c.run);
  }

  /** Waking the first waiter of h and putting the running task in front can be done in either order. */
  lemma WakeFrontSwap(c: Core, h: Ptr)
    requires AtRest(c) && h in c.g.lists && h != RDY && c.List(h) != []
    ensures var t := c.List(h)[0];
            && t != c.run && Front(c).List(h) == c.List(h)
            && Blank(ReadyAt(WakeFirst(c, h), 0, c.run)) == WakeFirst(Front(c), h)
  {
    hide DelayDrop;
    RunInTasks(c);
    assert c.g.on[c.g.lists[h][0]] == h;
    var l, r := ReadyAt(WakeFirst(c, h), 0, c.run), WakeFirst(Front(c), h);
    assert l.g.lists == r.g.lists;
    assert l.g.on == r.g.on;
  }

  /** One request: handled by rt_pop_req, or made as a call. */
  lemma PushIsThreadStep(k: KState, q: Request)
    requires AtRest(k.c) && RequestOk(k, q)
    ensures Push(k.(c := Front(k.c)), q) == (var k' := ThreadStep(k, q); k'.(c := Front(k'.c)))
  {
    hide AtRest, Front, Dispatch, ToReady, WakeFirst, DelayDrop, HasAll, HasAny, Without, Merge, Common;
    match q {
      case SemReq(h) =>
        FrontList(k.c, h);
        RunInTasks(k.c);
        if k.List(h) != [] {
          WakeSwap(k.c, h);
        }
      case EvtReq(t, flags) => SignalSwap(k, t, flags);
    }
  }

  lemma WakeSwap(c: Core, h: Ptr)
    requires AtRest(c) && h in c.g.lists && h != RDY && c.List(h) != []
    ensures var t := c.List(h)[0];
            && Front(c).List(h) == c.List(h)
            && Front(Commit(Dispatch(WakeFirst(c, h), t))) == ToReady(WakeFirst(Front(c), h), t)
  {
    hide Dispatch, ToReady, WakeFirst;
    RunInTasks(c);
    var t := c.List(h)[0];
    WakeFrontSwap(c, h);
    WakeRun(c, h);
    DispatchIsInsertion(WakeFirst(c, h), t);
    ToReadyBlank(ReadyAt(WakeFirst(c, h), 0, c.run), t);
  }

  lemma SignalSwap(k: KState, t: Ptr, flags: bv16)
    requires AtRest(k.c) && t in k.c.active
    ensures EvtPsh(k.(c := Front(k.c)), t, flags) == (var k' := EvtSet(k, t, flags); k'.(c := Front(Commit(k'.c))))
  {
    hide AtRest, Front, Dispatch, ToReady, DelayDrop, Satisfies, HasAll, HasAny, Without, Merge, Common;
    RunInTasks(k.c);
    SignalFront(k, t, flags);
    if Completes(k, t, flags) {
      CompletesNotRun(k, t, flags);
      DropSwap(k.c, t);
    } else {
      assert Commit(k.c) == k.c;
    }
  }

  lemma CompletesNotRun(k: KState, t: Ptr, flags: bv16)
    requires AtRest(k.c) && Completes(k, t, flags)
    ensures t != k.c.run
  {
    hide HasAll, HasAny;
    RunInTasks(k.c);
  }

  lemma SignalFront(k: KState, t: Ptr, flags: bv16)
    requires AtRest(k.c)
    ensures var k0, k1 := k.(c := Front(k.c)), Signal(k, t, flags);
            && Completes(k0, t, flags) == Completes(k, t, flags)
            && Signal(k0, t, flags) ==
               k1.(c := if Completes(k, t, flags) then Front(k.c).(d := DelayDrop(k.c.d, t)) else Front(k.c))
  {
    hide AtRest, ReadyAt, DelayDrop, HasAll, HasAny, Without, Merge, Common;
    FrontState(k.c, t);
    FrontDelay(k.c, []);
  }

  lemma DropSwap(c: Core, t: Ptr)
    requires AtRest(c) && t != c.run
    ensures Front(Commit(Dispatch(c.(d := DelayDrop(c.d, t)), t))) == ToReady(Front(c).(d := DelayDrop(c.d, t)), t)
  {
    hide ReadyAt, Dispatch, ToReady, DelayDrop;
    RunInTasks(c);
    var c1 := c.(d := DelayDrop(c.d, t));
    DispatchIsInsertion(c1, t);
    FrontDelay(c, DelayDrop(c.d, t));
    ToReadyBlank(ReadyAt(c1, 0, c.run), t);
  }

  lemma FrontDelay(c: Core, d: seq<Delay>)
    ensures Front(c.(d := d)) == Front(c).(d := d) && Front(c).d == c.d
  {
  }

  lemma WakeRun(c: Core, h: Ptr)
    requires c.List(h) != []
    ensures WakeFirst(c, h).run == c.run && WakeFirst(c, h).next == c.next
  {
  }

  lemma FrontList(c: Core, h: Ptr)
    requires h != RDY
    ensures Front(c).List(h) == c.List(h)
  {
  }

  lemma FrontState(c: Core, t: Ptr)
    requires AtRest(c)
    ensures t != c.run ==> Front(c).State(t) == c.State(t)
    ensures t == c.run ==> Front(c).State(t) == READY && c.State(t) == RUNNING
  {
    RunInTasks(c);
  }

  lemma ToReadyBlank(c: Core, t: Ptr)
    ensures Blank(ToReady(c, t)) == ToReady(Blank(c), t)
  {
  }

  lemma ThreadStepRests(k: KState, q: Request)
    requires AtRest(k.c) && RequestOk(k, q)
    ensures AtRest(ThreadStep(k, q).c)
  {
    hide Settled, Dispatch, WakeFirst, DelayDrop, HasAll, HasAny, Without, Merge, Common;
    match q {
      case SemReq(h) =>
        if k.List(h) != [] {
          WakeCall(k.c, h);
        }
      case EvtReq(t, flags) =>
        if Completes(k, t, flags) {
          SignalSettles(k.c, t);
        }
    }
    var k1 := match q case SemReq(h) => SemSend(k, h) case EvtReq(t, flags) => EvtSet(k, t, flags);
    CommitRests(k1.c);
  }

  lemma ThreadStepTypes(k: KState, q: Request, q': Request)
    requires AtRest(k.c) && RequestOk(k, q) && RequestOk(k, q')
    ensures RequestOk(ThreadStep(k, q), q')
  {
    hide AtRest, Dispatch, DelayDrop, HasAll, HasAny, Without, Merge, Common;
    match q {
      case SemReq(h) =>
        if k.List(h) != [] {
          DispatchTouches(WakeFirst(k.c, h), k.List(h)[0]);
        }
      case EvtReq(t, flags) => DispatchTouches(Signal(k, t, flags).c, t);
    }
  }

  /** rt_pop_req's loop ends, up to the position of the running task, where the calls one by one end. */
  lemma {:induction false} PushAllIsThreads(k: KState, qs: seq<Request>)
    requires AtRest(k.c) && forall i :: 0 <= i < |qs| ==> RequestOk(k, qs[i])
    ensures AtRest(ThreadAll(k, qs).c)
    ensures PushAll(k.(c := Front(k.c)), qs) == (var k' := ThreadAll(k, qs); k'.(c := Front(k'.c)))
    decreases |qs|
  {
    hide AtRest, RequestOk, Push, ThreadStep, Front;
    if qs != [] {
      var k1 := ThreadStep(k, qs[0]);
      PushIsThreadStep(k, qs[0]);
      ThreadStepRests(k, qs[0]);
      forall i | 0 <= i < |qs[1..]|
        ensures RequestOk(k1, qs[1..][i])
      {
        ThreadStepTypes(k, qs[0], qs[1..][i]);
      }
      PushAllIsThreads(k1, qs[1..]);
    }
  }

  /** Requests do not look at os_tsk. */
  lemma PushBlank(k: KState, q: Request)
    ensures Push(k.(c := Blank(k.c)), q) == (var k' := Push(k, q); k'.(c := Blank(k'.c)))
  {
    hide ToReady, Blank, WakeFirst, EvtPsh;
    BlankParts(k.c, []);
    match q {
      case SemReq(h) =>
        assert Blank(k.c).List(h) == k.c.List(h);
        if k.List(h) != [] {
          WakeBlank(k.c, h);
          ToReadyBlank(WakeFirst(k.c, h), k.List(h)[0]);
        }
      case EvtReq(t, flags) => EvtPshBlank(k, t, flags);
    }
  }

  lemma BlankParts(c: Core, d: seq<Delay>)
    ensures Blank(c).g == c.g && Blank(c).state == c.state && Blank(c).d == c.d
    ensures Blank(c.(d := d)) == Blank(c).(d := d)
  {
  }

  lemma WakeBlank(c: Core, h: Ptr)
    requires c.List(h) != []
    ensures Blank(c).List(h) == c.List(h) && WakeFirst(Blank(c), h) == Blank(WakeFirst(c, h))
  {
  }

  lemma EvtPshBlank(k: KState, t: Ptr, flags: bv16)
    ensures EvtPsh(k.(c := Blank(k.c)), t, flags) == (var k' := EvtPsh(k, t, flags); k'.(c := Blank(k'.c)))
  {
    hide ToReady, Blank, Signal, Completes;
    SignalBlank(k, t, flags);
    var k0, k1 := k.(c := Blank(k.c)), Signal(k, t, flags);
    if Completes(k, t, flags) {
      ToReadyBlank(k1.c, t);
      assert EvtPsh(k0, t, flags) == k1.(c := ToReady(Blank(k1.c), t));
    }
  }

  lemma SignalBlank(k: KState, t: Ptr, flags: bv16)
    ensures var k0, k1 := k.(c := Blank(k.c)), Signal(k, t, flags);
            && Completes(k0, t, flags) == Completes(k, t, flags)
            && Signal(k0, t, flags) == k1.(c := Blank(k1.c))
  {
    hide Blank, DelayDrop, Satisfies, Without, Merge, Common;
    BlankParts(k.c, DelayDrop(k.c.d, t));
  }

  lemma {:induction false} PushAllBlank(k: KState, qs: seq<Request>)
    ensures PushAll(k.(c := Blank(k.c)), qs) == (var k' := PushAll(k, qs); k'.(c := Blank(k'.c)))
    decreases |qs|
  {
    hide Push;
    if qs != [] {
      PushBlank(k, qs[0]);
      PushAllBlank(Push(k, qs[0]), qs[1..]);
    }
  }

  lemma DispatchBlank(c: Core)
    requires c.Ready() != []
    ensures Commit(DispatchNext(Blank(c))) == Commit(DispatchNext(c))
  {
  }

  /**
   * The interrupt path equals the thread path: draining any queue of semaphore releases and event
   * sets ends in exactly the state that making the calls one by one ends in.
   */
  lemma DrainEqualsCalls(k: KState, qs: seq<Request>)
    requires AtRest(k.c) && forall i :: 0 <= i < |qs| ==> RequestOk(k, qs[i])
    ensures Do(k, PendSV(qs)) == ThreadAll(k, qs)
  {
    hide AtRest, RequestOk, PushAll, ThreadAll, ReadyAt, DispatchNext;
    var k0 := k.(c := ReadyAt(k.c, 0, k.c.run));
    var k1, k' := PushAll(k0, qs), ThreadAll(k, qs);
    PushAllBlank(k0, qs);
    PushAllIsThreads(k, qs);
    assert Blank(k1.c) == Front(k'.c);
    FrontAndBack(k'.c);
    DispatchBlank(k1.c);
  }
}
