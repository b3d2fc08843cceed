/** Every kernel call keeps the invariant of the whole kernel. */
module RtxKeeps {
  import opened Links
  import opened TaskLists
  import opened RtxOrder
  import opened Delays
  import opened RtxList
  import opened RtxSched
  import opened RtxPlaces
  import opened RtxRest
  import opened RtxSpec
  import opened EventBits
  import opened RtxObjects

  predicate EventWait(st: TaskState) {
    st == WAIT_AND || st == WAIT_OR
  }

  /** No list but that of m gains a first waiter, and no task but u starts to wait for events. */
  ghost predicate Calm(c: Core, c': Core, m: Ptr, u: Ptr) {
    && c'.g.tasks == c.g.tasks
    && (forall h {:trigger c'.List(h)} :: h != RDY && h != m ==>
          (h in c'.g.lists ==> h in c.g.lists) && At(c'.kind, h, TCB) == At(c.kind, h, TCB) &&
          (c.List(h) == [] ==> c'.List(h) == []))
    && (forall t {:trigger c'.State(t)} {:trigger c'.Live(t)} :: t != u ==>
          (c'.State(t) == c.State(t) || !EventWait(c'.State(t))) && (c'.Live(t) ==> c.Live(t)))
  }

  lemma CalmTrans(a: Core, b: Core, c: Core, m: Ptr, u: Ptr)
    requires Calm(a, b, m, u) && Calm(b, c, m, u)
    ensures Calm(a, c, m, u)
  {
    forall h | h != RDY && h != m
      ensures (h in c.g.lists ==> h in a.g.lists) && At(c.kind, h, TCB) == At(a.kind, h, TCB)
      ensures a.List(h) == [] ==> c.List(h) == []
    {
      var _, _ := b.List(h), c.List(h);
    }
    forall t | t != u
      ensures (c.State(t) == a.State(t) || !EventWait(c.State(t))) && (c.Live(t) ==> a.Live(t))
    {
      var _, _ := b.State(t), c.State(t);
    }
  }

  lemma CalmReady(c: Core, c': Core, m: Ptr, u: Ptr)
    requires ReadyOnly(c, c')
    ensures Calm(c, c', m, u)
  {
  }

  ghost predicate OwnersActive(k: KState, active: set<Ptr>, m: Ptr) {
    forall h :: IsObject(k, h, MUCB) && h != m && h in k.mut && k.mut[h].level > 0 ==> k.mut[h].owner in active
  }

  /** The rest of the kernel state, seen by the objects and tasks that a call does not name. */
  ghost predicate Same(k: KState, k': KState, m: Ptr, u: Ptr) {
    && (forall h :: h != m ==>
          (h in k.tokens ==> h in k'.tokens && k'.tokens[h] == k.tokens[h])
          && (h in k.mut ==> h in k'.mut && k'.mut[h] == k.mut[h])
          && (h in k.mbx ==> h in k'.mbx && k'.mbx[h] == k.mbx[h]))
    && (forall t :: t != u ==>
          (t in k.events ==> t in k'.events && k'.events[t] == k.events[t])
          && (t in k.waits ==> t in k'.waits && k'.waits[t] == k.waits[t]))
    && (forall t :: (t in k.msg ==> t in k'.msg) && (t in k.ret ==> t in k'.ret))
    && (k.c.active <= k'.c.active || OwnersActive(k, k'.c.active, m))
  }

  lemma ObjectKept(k: KState, k': KState, m: Ptr, u: Ptr, h: Ptr)
    requires Calm(k.c, k'.c, m, u) && Same(k, k', m, u)
    requires h in k'.c.g.lists && h != RDY && h != m && ObjectOk(k, h)
    ensures ObjectOk(k', h)
  {
    assert k'.c.List(h) == k'.List(h);
  }

  lemma FlagsKept(k: KState, k': KState, m: Ptr, u: Ptr, t: Ptr)
    requires Calm(k.c, k'.c, m, u) && Same(k, k', m, u) && t != u && FlagsOk(k, t)
    ensures FlagsOk(k', t)
  {
    hide OwnersActive;
    assert k'.c.Live(t) ==> k.c.Live(t);
    assert t in k'.events && t in k'.waits && t in k'.msg && t in k'.ret;
    assert k'.events[t] == k.events[t] && k'.waits[t] == k.waits[t];
    assert k'.c.State(t) == k.c.State(t) || !EventWait(k'.c.State(t));
  }

  /** An object or task that a call does not name is as well off as before. */
  lemma ObjectsKept(k: KState, k': KState, m: Ptr, u: Ptr)
    requires Objects(k) && Calm(k.c, k'.c, m, u) && Same(k, k', m, u)
    requires m in k'.c.g.lists && m != RDY ==> ObjectOk(k', m)
    requires u in k'.c.g.tasks ==> FlagsOk(k', u)
    ensures Objects(k')
  {
    hide ObjectOk, FlagsOk, Same;
    forall h | h in k'.c.g.lists && h != RDY && h != m
      ensures ObjectOk(k', h)
    {
      CalmList(k.c, k'.c, m, u, h);
      ObjectKept(k, k', m, u, h);
    }
    forall t | t in k'.c.g.tasks && t != u
      ensures FlagsOk(k', t)
    {
      FlagsKept(k, k', m, u, t);
    }
  }

  lemma CalmList(c: Core, c': Core, m: Ptr, u: Ptr, h: Ptr)
    requires Calm(c, c', m, u) && h in c'.g.lists && h != RDY && h != m
    ensures h in c.g.lists
  {
    var _ := c'.List(h);
  }

  lemma CalmDispatch(c: Core, t: Ptr, m: Ptr, u: Ptr)
    ensures Calm(c, Dispatch(c, t), m, u) && Calm(c, ToReady(c, t), m, u)
    ensures Calm(c, DispatchNext(c), m, u) && Calm(c, PreemptCheck(c), m, u)
  {
    hide Dispatch, ToReady, DispatchNext, PreemptCheck, ReadyOnly, Calm;
    DispatchTouches(c, t);
    PreemptCheckTouches(c);
    CalmReady(c, Dispatch(c, t), m, u);
    CalmReady(c, ToReady(c, t), m, u);
    CalmReady(c, DispatchNext(c), m, u);
    CalmReady(c, PreemptCheck(c), m, u);
  }

  lemma CalmWake(c: Core, h: Ptr, m: Ptr, u: Ptr)
    requires c.List(h) != []
    ensures Calm(c, WakeFirst(c, h), m, u)
    ensures Calm(c, Dispatch(WakeFirst(c, h), c.List(h)[0]), m, u)
    ensures Calm(c, ToReady(WakeFirst(c, h), c.List(h)[0]), m, u)
  {
    var c1 := WakeFirst(c, h);
    assert Calm(c, c1, m, u);
    CalmDispatch(c1, c.List(h)[0], m, u);
    CalmTrans(c, c1, Dispatch(c1, c.List(h)[0]), m, u);
    CalmTrans(c, c1, ToReady(c1, c.List(h)[0]), m, u);
  }

  lemma {:induction false} CalmWakeAll(c: Core, h: Ptr, m: Ptr, u: Ptr)
    requires h != RDY
    ensures Calm(c, WakeAll(c, h), m, u)
    decreases |c.List(h)|
  {
    hide Calm;
    if c.List(h) == [] {
      CalmReady(c, c, m, u);
    } else {
      var c1 := ToReady(WakeFirst(c, h), c.List(h)[0]);
      CalmWake(c, h, m, u);
      CalmWakeAll(c1, h, m, u);
      CalmTrans(c, c1, WakeAll(c, h), m, u);
    }
  }

  lemma CalmReprio(c: Core, t: Ptr, p: nat, m: Ptr, u: Ptr)
    ensures Calm(c, Reprio(c, t, p), m, u)
  {
  }

  /** The running task u blocks, queued on m if m is a list. */
  lemma CalmBlock(c: Core, m: Ptr, n: nat, st: TaskState, queue: bool)
    requires queue ==> !EventWait(st)
    ensures Calm(c, Block(if queue then QueueRun(c, m) else c, n, st), m, c.run)
  {
    hide DispatchNext, DelayPut, Ins;
    var c1 := if queue then QueueRun(c, m) else c;
    if n != 0 {
      var d := if n < NO_TIMEOUT then DelayPut(c1.d, c1.run, n) else c1.d;
      var c2 := c1.(d := d, state := c1.state[c1.run := st]);
      assert Calm(c, c2, m, c.run);
      CalmDispatch(c2, NULL, m, c.run);
      CalmTrans(c, c2, DispatchNext(c2), m, c.run);
    }
  }

  // ----- the calls, one source file after another

  lemma ObjectAt(k: KState, h: Ptr)
    requires Objects(k) && h in k.c.g.lists && h != RDY
    ensures ObjectOk(k, h)
  {
  }

  lemma FlagsAt(k: KState, t: Ptr)
    requires Objects(k) && t in k.c.g.tasks
    ensures FlagsOk(k, t) && (k.c.Live(t) ==> !Satisfies(k.c.State(t), k.events[t], k.waits[t]))
  {
    hide Met, Satisfies;
    assert FlagsOk(k, t);
    MetIsSatisfied(k.c.State(t), k.events[t], k.waits[t]);
  }

  /** A call that changes lists and results only. */
  lemma KeptCore(k: KState, c': Core, ret': map<Ptr, Ret>)
    requires Objects(k) && Calm(k.c, c', RDY, NULL) && k.c.active <= c'.active && NULL !in c'.g.tasks
    requires forall t :: t in k.ret ==> t in ret'
    ensures Objects(k.(c := c', ret := ret'))
  {
    hide Objects, Calm;
    ObjectsKept(k, k.(c := c', ret := ret'), RDY, NULL);
  }

  /** A call that also changes the event flags of u. */
  lemma KeptFlags(k: KState, u: Ptr, c': Core, ret': map<Ptr, Ret>, events': map<Ptr, bv16>, waits': map<Ptr, bv16>)
    requires Objects(k) && Calm(k.c, c', RDY, u) && k.c.active <= c'.active
    requires forall t :: t in k.ret ==> t in ret'
    requires forall t :: t in k.events && t != u ==> t in events' && events'[t] == k.events[t]
    requires forall t :: t in k.waits && t != u ==> t in waits' && waits'[t] == k.waits[t]
    requires u in events' && u in waits' && u in c'.g.tasks && !Satisfies(c'.State(u), events'[u], waits'[u])
    ensures Objects(k.(c := c', ret := ret', events := events', waits := waits'))
  {
    hide Objects, Calm, Satisfies, Met;
    MetIsSatisfied(c'.State(u), events'[u], waits'[u]);
    FlagsAt(k, u) by { CalmTasks(k.c, c', RDY, u); }
    ObjectsKept(k, k.(c := c', ret := ret', events := events', waits := waits'), RDY, u);
  }

  lemma CalmTasks(c: Core, c': Core, m: Ptr, u: Ptr)
    requires Calm(c, c', m, u)
    ensures c'.g.tasks == c.g.tasks
  {
  }

  lemma SemSendKept(k: KState, h: Ptr)
    requires KInv(k) && IsObject(k, h, SCB)
    ensures Objects(SemSend(Return(k, OS_R_OK), h)) && Objects(SemPsh(k, h))
  {
    hide AtRest, Calm, Objects, Dispatch, ToReady, WakeFirst;
    RunIsTask(k.c);
    if k.List(h) != [] {
      WakeKept(k, h, Val(1));
      WakeKept(Return(k, OS_R_OK), h, Val(1)) by { ReturnKept(k, OS_R_OK); }
    } else {
      StoreTokenKept(k, h);
      StoreTokenKept(Return(k, OS_R_OK), h) by { ReturnKept(k, OS_R_OK); }
    }
  }

  lemma ReturnKept(k: KState, code: int)
    requires Objects(k) && NULL !in k.c.g.tasks
    ensures Objects(Return(k, code))
  {
    CalmReady(k.c, k.c, RDY, NULL);
    KeptCore(k, k.c, k.ret[k.c.run := Code(code)]);
  }

  lemma WakeKept(k: KState, h: Ptr, r: Ret)
    requires Objects(k) && k.List(h) != [] && NULL !in k.c.g.tasks
    ensures Objects(Wake(k, h, r)) && Objects(WakeReady(k, h, r))
  {
    hide Calm, Objects, Dispatch, ToReady, WakeFirst;
    var t, c1 := k.List(h)[0], WakeFirst(k.c, h);
    CalmWake(k.c, h, RDY, NULL);
    DispatchedState(c1, t);
    WakeActive(k.c, h);
    CalmTasks(k.c, Dispatch(c1, t), RDY, NULL);
    CalmTasks(k.c, ToReady(c1, t), RDY, NULL);
    KeptCore(k, Dispatch(c1, t), k.ret[t := r]);
    KeptCore(k, ToReady(c1, t), k.ret[t := r]);
  }

  lemma StoreTokenKept(k: KState, h: Ptr)
    requires Objects(k) && IsObject(k, h, SCB) && k.List(h) == [] && NULL !in k.c.g.tasks
    ensures Objects(StoreToken(k, h))
  {
    hide Calm, Objects;
    ObjectAt(k, h);
    CalmReady(k.c, k.c, h, NULL);
    ObjectsKept(k, StoreToken(k, h), h, NULL);
  }

  lemma WakeActive(c: Core, h: Ptr)
    requires c.List(h) != []
    ensures WakeFirst(c, h).active == c.active && WakeFirst(c, h).kind == c.kind
  {
  }

  lemma SemWaitKept(k: KState, h: Ptr, n: nat)
    requires KInv(k) && IsObject(k, h, SCB)
    ensures Objects(SemWait(k, h, n))
  {
    hide AtRest, Calm, Objects, Block, QueueRun;
    ObjectAt(k, h);
    RunIsTask(k.c);
    FlagsAt(k, k.c.run);
    var u := if At(k.tokens, h, 0) == 0 && n != 0 then k.c.run else NULL;
    CalmBlock(k.c, h, n, WAIT_SEM, true);
    BlockedCore(k.c, h, n, WAIT_SEM, true);
    CalmReady(k.c, k.c, h, NULL);
    ObjectsKept(k, SemWait(k, h, n), h, u);
  }

  lemma RunIsTask(c: Core)
    requires AtRest(c)
    ensures c.run in c.g.tasks && NULL !in c.g.tasks && RDY !in c.g.tasks && c.active <= c.g.tasks && NULL !in c.g.lists
    ensures c.run != NULL && c.State(c.run) == RUNNING && c.Live(c.run)
  {
  }

  /** What blocking leaves alone, and the state of the blocked task. */
  lemma BlockedCore(c: Core, m: Ptr, n: nat, st: TaskState, queue: bool)
    ensures var c' := Block(if queue then QueueRun(c, m) else c, n, st);
            && c'.active == c.active && c'.kind == c.kind && c'.idle == c.idle
            && (n != 0 ==> c'.State(c.run) == st || c'.State(c.run) == RUNNING)
            && (n == 0 ==> c'.State(c.run) == c.State(c.run))
  {
    hide DelayPut, Ins;
  }

  lemma DiscardKept(k: KState, h: Ptr)
    requires Objects(k) && h != RDY && h in k.c.g.lists && NULL !in k.c.g.tasks && k.c.run in k.c.g.tasks
    ensures Objects(Discard(k, h))
  {
    hide Objects, WakeAll, PreemptCheck, Calm;
    var c1 := WakeAll(k.c, h);
    var c2 := PreemptCheck(c1);
    CalmWakeAll(k.c, h, h, NULL);
    CalmDispatch(c1, NULL, h, NULL);
    CalmTrans(k.c, c1, c2, h, NULL);
    CalmRetype(k.c, c2, h, TCB);
    WakeAllActive(k.c, h);
    PreemptCheckTouches(c1);
    RetAllKeys(k.ret, k.List(h), Val(0));
    ObjectsKept(k, Discard(k, h), h, NULL);
  }

  lemma CalmRetype(c: Core, c2: Core, h: Ptr, ty: Kind)
    requires Calm(c, c2, h, NULL)
    ensures Calm(c, c2.(kind := c2.kind[h := ty]), h, NULL)
  {
    var c' := c2.(kind := c2.kind[h := ty]);
    forall g | g != RDY && g != h
      ensures (g in c'.g.lists ==> g in c.g.lists) && At(c'.kind, g, TCB) == At(c.kind, g, TCB)
      ensures c.List(g) == [] ==> c'.List(g) == []
    {
      var _ := c2.List(g);
    }
    forall t | t != NULL
      ensures (c'.State(t) == c.State(t) || !EventWait(c'.State(t))) && (c'.Live(t) ==> c.Live(t))
    {
      var _, _ := c2.State(t), c2.Live(t);
    }
  }

  lemma {:induction false} WakeAllActive(c: Core, h: Ptr)
    requires h != RDY
    ensures WakeAll(c, h).active == c.active
    decreases |c.List(h)|
  {
    if c.List(h) != [] {
      WakeAllActive(ToReady(WakeFirst(c, h), c.List(h)[0]), h);
    }
  }

  lemma {:induction false} RetAllKeys(ret: map<Ptr, Ret>, s: seq<Ptr>, r: Ret)
    ensures forall t :: t in ret ==> t in RetAll(ret, s, r)
    decreases |s|
  {
    if s != [] {
      RetAllKeys(ret[s[0] := r], s[1..], r);
    }
  }

  lemma EvtKept(k: KState, t: Ptr, flags: bv16, n: nat, and: bool)
    requires KInv(k)
    ensures t in k.c.active ==> Objects(EvtPsh(k, t, flags))
    ensures Objects(EvtSet(k, t, flags)) && Objects(EvtClr(k, t, flags)) && Objects(EvtWait(k, flags, n, and))
  {
    hide Calm, Block, Objects, AtRest;
    RunIsTask(k.c);
    if t in k.c.active {
      EvtSetKept(k, t, flags);
      EvtClrKept(k, t, flags);
    }
    EvtWaitKept(k, flags, n, and);
  }

  lemma EvtSetKept(k: KState, t: Ptr, flags: bv16)
    requires Objects(k) && t in k.c.active && t in k.c.g.tasks
    ensures Objects(EvtSet(k, t, flags)) && Objects(EvtPsh(k, t, flags))
  {
    hide Calm, Dispatch, ToReady, DelayDrop, Objects, HasAll, HasAny, Without, Merge, Common;
    FlagsAt(k, t);
    if Completes(k, t, flags) {
      EvtDoneKept(k, t, flags);
    } else {
      var k1 := Signal(k, t, flags);
      CalmReady(k.c, k.c, RDY, t);
      KeptFlags(k, t, k.c, k1.ret, k1.events, k1.waits);
    }
  }

  lemma EvtDoneKept(k: KState, t: Ptr, flags: bv16)
    requires Objects(k) && t in k.c.active && t in k.c.g.tasks && Completes(k, t, flags) && FlagsOk(k, t)
    ensures Objects(EvtSet(k, t, flags)) && Objects(EvtPsh(k, t, flags))
  {
    hide Calm, Dispatch, ToReady, DelayDrop, Objects, Completes, Without, Merge, Common;
    var k1 := Signal(k, t, flags);
    var c1, c2 := Dispatch(k1.c, t), ToReady(k1.c, t);
    CalmSignal(k.c, t);
    CalmDispatch(k1.c, t, RDY, t);
    CalmTrans(k.c, k1.c, c1, RDY, t);
    CalmTrans(k.c, k1.c, c2, RDY, t);
    DispatchedState(k1.c, t);
    CalmTasks(k.c, c1, RDY, t);
    CalmTasks(k.c, c2, RDY, t);
    KeptFlags(k, t, c1, k1.ret, k1.events, k1.waits);
    KeptFlags(k, t, c2, k1.ret, k1.events, k1.waits);
  }

  lemma CalmSignal(c: Core, t: Ptr)
    ensures Calm(c, c.(d := DelayDrop(c.d, t)), RDY, t)
  {
  }

  lemma DispatchedState(c: Core, t: Ptr)
    ensures !EventWait(Dispatch(c, t).State(t)) && !EventWait(ToReady(c, t).State(t))
    ensures Dispatch(c, t).active == c.active && ToReady(c, t).active == c.active
  {
  }

  lemma EvtClrKept(k: KState, t: Ptr, flags: bv16)
    requires Objects(k) && t in k.c.active && t in k.c.g.tasks
    ensures Objects(EvtClr(k, t, flags))
  {
    hide Calm, Objects;
    FlagsAt(k, t);
    ClearedStillWaits(k.c.State(t), k.events[t], k.waits[t], flags);
    CalmReady(k.c, k.c, RDY, t);
    KeptFlags(k, t, k.c, k.ret, EvtClr(k, t, flags).events, k.waits);
  }

  /** Clearing flags satisfies nobody. */
  lemma ClearedStillWaits(st: TaskState, e: bv16, w: bv16, flags: bv16)
    requires !Satisfies(st, e, w)
    ensures !Satisfies(st, Without(e, flags), w)
  {
    assert (e & !flags) & w == (e & w) & !flags;
    assert (e & w) & !flags == w ==> e & w == w;
    assert e & w == 0 ==> (e & w) & !flags == 0;
  }

  /** The running task changes its own flags. */
  lemma OwnFlagsKept(k: KState, e: bv16, w: bv16, r: Ret)
    requires Objects(k) && AtRest(k.c)
    ensures var run := k.c.run;
            Objects(k.(ret := k.ret[run := r], events := k.events[run := e], waits := k.waits[run := w]))
  {
    hide Calm, AtRest, Objects, HasAll, HasAny, At;
    var run := k.c.run;
    RunIsTask(k.c);
    FlagsAt(k, run);
    CalmReady(k.c, k.c, RDY, run);
    KeptFlags(k, run, k.c, k.ret[run := r], k.events[run := e], k.waits[run := w]);
  }

  /** The running task blocks for flags it does not have. */
  lemma EvtBlockKept(k: KState, flags: bv16, n: nat, and: bool)
    requires Objects(k) && AtRest(k.c)
    requires n != 0 ==> !Satisfies(if and then WAIT_AND else WAIT_OR, At(k.events, k.c.run, 0), flags)
    ensures Objects(Return(k, OS_R_TMO).(waits := k.waits[k.c.run := flags],
                                         c := Block(k.c, n, if and then WAIT_AND else WAIT_OR)))
  {
    hide Calm, Block, AtRest, Objects, HasAll, HasAny;
    var run, st := k.c.run, if and then WAIT_AND else WAIT_OR;
    RunIsTask(k.c);
    FlagsAt(k, run);
    CalmBlock(k.c, RDY, n, st, false);
    BlockedCore(k.c, RDY, n, st, false);
    CalmTasks(k.c, Block(k.c, n, st), RDY, run);
    KeptFlags(k, run, Block(k.c, n, st), k.ret[run := Code(OS_R_TMO)], k.events, k.waits[run := flags]);
  }

  lemma EvtWaitKept(k: KState, flags: bv16, n: nat, and: bool)
    requires Objects(k) && AtRest(k.c)
    ensures Objects(EvtWait(k, flags, n, and))
  {
    hide Calm, Block, AtRest, Objects, HasAll, HasAny, Without, Merge, Common;
    var run := k.c.run;
    RunIsTask(k.c);
    FlagsAt(k, run);
    var e := k.events[run];
    if and && HasAll(e, flags) {
      OwnFlagsKept(k, Without(e, flags), k.waits[run], Code(OS_R_EVT));
      assert k.waits[run := k.waits[run]] == k.waits;
    } else if !and && HasAny(e, flags) {
      OwnFlagsKept(k, Without(e, flags), Common(e, flags), Code(OS_R_EVT));
    } else {
      EvtBlockKept(k, flags, n, and);
    }
  }

  // ----- mutexes

  /** The control block of object m is replaced, lists stay. */
  lemma ObjectSetKept(k: KState, k': KState, m: Ptr)
    requires Objects(k) && k'.c == k.c && k'.events == k.events && k'.waits == k.waits && NULL !in k.c.g.tasks
    requires forall t :: (t in k.msg ==> t in k'.msg) && (t in k.ret ==> t in k'.ret)
    requires forall h :: h != m ==>
               && (h in k.tokens ==> h in k'.tokens && k'.tokens[h] == k.tokens[h])
               && (h in k.mut ==> h in k'.mut && k'.mut[h] == k.mut[h])
               && (h in k.mbx ==> h in k'.mbx && k'.mbx[h] == k.mbx[h])
    requires ObjectOk(k', m)
    ensures Objects(k')
  {
    hide Objects, Calm, ObjectOk;
    CalmReady(k.c, k.c, m, NULL);
    ObjectsKept(k, k', m, NULL);
  }

  /** The running task queues on m, whose control block may change, and blocks. */
  lemma BlockOnKept(k: KState, k1: KState, m: Ptr, n: nat, st: TaskState)
    requires Objects(k) && AtRest(k1.c) && Calm(k.c, k1.c, m, k1.c.run) && k.c.active <= k1.c.active
    requires k1.events == k.events && k1.waits == k.waits && !EventWait(st) && n != 0 && m != RDY
    requires forall t :: (t in k.msg ==> t in k1.msg) && (t in k.ret ==> t in k1.ret)
    requires k1.tokens == k.tokens && k1.mut == k.mut
    requires forall h :: h != m && h in k.mbx ==> h in k1.mbx && k1.mbx[h] == k.mbx[h]
    requires ObjectOk(BlockOn(k1, m, n, st), m)
    ensures Objects(BlockOn(k1, m, n, st))
  {
    hide Objects, Calm, ObjectOk, AtRest, Block, QueueRun;
    var run := k1.c.run;
    var c' := Block(QueueRun(k1.c, m), n, st);
    RunIsTask(k1.c);
    CalmTasks(k.c, k1.c, m, run);
    FlagsAt(k, run);
    CalmBlock(k1.c, m, n, st, true);
    CalmTrans(k.c, k1.c, c', m, run);
    BlockedCore(k1.c, m, n, st, true);
    ObjectsKept(k, BlockOn(k1, m, n, st), m, run);
  }

  lemma SetMutexKept(k: KState, m: Ptr, mu: Mutex)
    requires Objects(k) && IsObject(k, m, MUCB) && NULL !in k.c.g.tasks
    requires mu.level < 0x1_0000 && (mu.level == 0 ==> k.List(m) == []) && (mu.level > 0 ==> mu.owner in k.c.active)
    ensures Objects(Return(k.(mut := k.mut[m := mu]), OS_R_OK))
  {
    hide Objects;
    ObjectSetKept(k, Return(k.(mut := k.mut[m := mu]), OS_R_OK), m);
  }

  lemma MutWaitKept(k: KState, m: Ptr, n: nat)
    requires KInv(k) && Legal(k, WaitMut(m, n))
    ensures Objects(MutWait(k, m, n))
  {
    hide Objects, AtRest, Block, QueueRun, Reprio;
    var run, mu := k.c.run, At(k.mut, m, FREE);
    ObjectAt(k, m);
    RunIsTask(k.c);
    if mu.level == 0 {
      SetMutexKept(k, m, Mutex(k.c.Prio(run), 1, run));
    } else if mu.owner == run {
      SetMutexKept(k, m, mu.(level := U16(mu.level + 1)));
    } else if n == 0 {
      ReturnKept(k, OS_R_TMO);
    } else {
      MutBlockKept(k, m, n);
    }
  }

  lemma MutBlockKept(k: KState, m: Ptr, n: nat)
    requires KInv(k) && IsObject(k, m, MUCB) && n != 0 && m in k.mut
    requires k.mut[m].level > 0 && k.mut[m].owner != k.c.run
    ensures Objects(MutWait(k, m, n))
  {
    hide Objects, Sched, Block, QueueRun, Reprio, Calm;
    var run, mu := k.c.run, k.mut[m];
    var k1 := k.(c := if mu.prio < k.c.Prio(run) then Reprio(k.c, mu.owner, k.c.Prio(run)) else k.c);
    OwnerActive(k, m);
    ObjectAt(k, m);
    CalmReady(k.c, k.c, m, run);
    if mu.prio < k.c.Prio(run) {
      RaiseRests(k.c, mu.owner);
      CalmReprio(k.c, mu.owner, k.c.Prio(run), m, run);
      ReprioFields(k.c, mu.owner, k.c.Prio(run));
    }
    BlockedCore(k1.c, m, n, WAIT_MUT, true);
    BlockOnKept(k, k1, m, n, WAIT_MUT);
  }

  lemma RaiseRests(c: Core, t: Ptr)
    requires AtRest(c) && t in c.active && t != c.run
    ensures AtRest(Reprio(c, t, c.Prio(c.run)))
  {
    hide Sched, Reprio, Tops;
    SettledSched(c);
    ActiveIsTask(c);
    ReprioKeeps(c, {}, c.run, t, c.Prio(c.run));
    ReprioFields(c, t, c.Prio(c.run));
    RaiseTops(c, t);
  }

  /** A task waiting for an object is active. */
  lemma WaiterActive(c: Core, hands: set<Ptr>, cur: Ptr, h: Ptr)
    requires Sched(c, hands, cur) && h in c.g.lists && h != RDY && c.g.lists[h] != []
    ensures c.g.lists[h][0] in c.active
  {
    var t := c.g.lists[h][0];
    assert c.g.on[t] == h;
    assert if t in hands then InHand(c, t) else Placed(c, t);
  }

  lemma MutReleaseKept(k: KState, m: Ptr)
    requires KInv(k) && IsObject(k, m, MUCB)
    ensures Objects(MutRelease(k, m))
  {
    hide Objects, AtRest, PreemptCheck, HandOver;
    var run, mu := k.c.run, At(k.mut, m, FREE);
    ObjectAt(k, m);
    RunIsTask(k.c);
    if mu.level == 0 || mu.owner != run {
      ReturnKept(k, OS_R_NOK);
    } else if mu.level != 1 {
      SetMutexKept(k, m, mu.(level := mu.level - 1));
    } else if k.List(m) == [] {
      SetMutexKept(k, m, mu.(level := 0));
      PrioCheckKept(Return(k.(mut := k.mut[m := mu.(level := 0)]), OS_R_OK), mu.prio);
    } else {
      MutHandOverKept(k, m);
    }
  }

  lemma PrioCheckKept(k: KState, p: nat)
    requires Objects(k) && NULL !in k.c.g.tasks
    ensures Objects(k.(c := PreemptCheck(k.c.(prio := k.c.prio[k.c.run := p]))))
  {
    hide Objects, PreemptCheck, Calm;
    var c := k.c.(prio := k.c.prio[k.c.run := p]);
    CalmPrio(k.c, k.c.run, p, RDY);
    CalmDispatch(c, NULL, RDY, NULL);
    CalmTrans(k.c, c, PreemptCheck(c), RDY, NULL);
    PreemptCheckTouches(c);
    CalmTasks(k.c, PreemptCheck(c), RDY, NULL);
    KeptCore(k, PreemptCheck(c), k.ret);
  }

  lemma CalmPrio(c: Core, t: Ptr, p: nat, m: Ptr)
    ensures Calm(c, c.(prio := c.prio[t := p]), m, NULL)
  {
  }

  lemma MutHandOverKept(k: KState, m: Ptr)
    requires KInv(k) && IsObject(k, m, MUCB) && k.List(m) != [] && m in k.mut
    requires k.mut[m].level == 1 && k.mut[m].owner == k.c.run
    ensures Objects(MutRelease(k, m))
  {
    hide Objects, Sched, Calm, WakeFirst, HandTo;
    var run, mu, t, k' := k.c.run, k.mut[m], k.List(m)[0], MutRelease(k, m);
    RunIsTask(k.c);
    WaiterActive(k.c, {}, k.c.next, m);
    var c := k.c.(prio := k.c.prio[run := mu.prio]);
    var c1 := WakeFirst(c, m);
    CalmPrio(k.c, run, mu.prio, m);
    CalmWake(c, m, m, NULL);
    CalmTrans(k.c, c, c1, m, NULL);
    WakeActive(c, m);
    CalmHandOver(c1, t, m);
    CalmTrans(k.c, c1, k'.c, m, NULL);
    CalmTasks(k.c, k'.c, m, NULL);
    ObjectsKept(k, k', m, NULL);
  }

  lemma CalmHandOver(c: Core, t: Ptr, m: Ptr)
    ensures var c' := HandTo(c, t);
            Calm(c, c', m, NULL) && c'.active == c.active && c'.kind == c.kind
  {
    hide Calm, DispatchNext, ToReady, Dispatch;
    var c2 := ToReady(c, c.run);
    var c3 := ToReady(c2, t);
    CalmDispatch(c, t, m, NULL);
    CalmDispatch(c, c.run, m, NULL);
    CalmDispatch(c2, t, m, NULL);
    CalmDispatch(c3, t, m, NULL);
    CalmTrans(c, c2, c3, m, NULL);
    CalmTrans(c, c3, DispatchNext(c3), m, NULL);
    DispatchTouches(c, t);
    DispatchTouches(c, c.run);
    DispatchTouches(c2, t);
    PreemptCheckTouches(c3);
  }

  // ----- mailboxes

  lemma SetMailboxKept(k: KState, m: Ptr, b: Mailbox, r: Ret)
    requires Objects(k) && IsObject(k, m, MCB) && NULL !in k.c.g.tasks && RingOk(b)
    requires k.List(m) != [] ==> (b.state == 1 && b.count == 0) || (b.state == 2 && b.count == b.size)
    ensures Objects(k.(mbx := k.mbx[m := b], ret := k.ret[k.c.run := r]))
  {
    hide Objects, RingOk;
    ObjectSetKept(k, k.(mbx := k.mbx[m := b], ret := k.ret[k.c.run := r]), m);
  }

  lemma MbxBlockKept(k: KState, m: Ptr, st: nat, x: map<Ptr, int>, n: nat)
    requires KInv(k) && IsObject(k, m, MCB) && n != 0 && m in k.mbx && (st == 1 || st == 2)
    requires k.mbx[m].count == if st == 1 then 0 else k.mbx[m].size
    requires k.List(m) != [] ==> k.mbx[m].state == st
    requires forall t :: t in k.msg ==> t in x
    ensures var b := if k.List(m) == [] then k.mbx[m].(state := st) else k.mbx[m];
            Objects(BlockOn(k.(mbx := k.mbx[m := b], msg := x), m, n, WAIT_MBX))
  {
    hide Objects, AtRest, Block, QueueRun, RingOk, Calm;
    var b := if k.List(m) == [] then k.mbx[m].(state := st) else k.mbx[m];
    var k1 := k.(mbx := k.mbx[m := b], msg := x);
    ObjectAt(k, m);
    RingState(k.mbx[m], st);
    CalmReady(k.c, k.c, m, k.c.run);
    BlockedCore(k.c, m, n, WAIT_MBX, true);
    BlockOnKept(k, k1, m, n, WAIT_MBX);
  }

  lemma RingState(b: Mailbox, st: nat)
    requires RingOk(b)
    ensures RingOk(b.(state := st))
  {
  }

  lemma MbxSendKept(k: KState, m: Ptr, x: int, n: nat)
    requires KInv(k) && IsObject(k, m, MCB)
    ensures Objects(MbxSend(k, m, x, n))
  {
    hide Objects, AtRest, Block, QueueRun, Wake;
    var run, b := k.c.run, At(k.mbx, m, NO_MAILBOX);
    ObjectAt(k, m);
    RunIsTask(k.c);
    if k.List(m) != [] && b.state == 1 {
      ReturnKept(k, OS_R_OK);
      WakeKept(Return(k, OS_R_OK), m, Message(x));
    } else if b.count == b.size && n == 0 {
      ReturnKept(k, OS_R_TMO);
    } else if b.count == b.size {
      MbxBlockKept(k, m, 2, k.msg[run := x], n);
    } else {
      SetMailboxKept(k, m, Store(b, x).(count := b.count + 1), Code(OS_R_OK));
    }
  }

  lemma MbxWaitKept(k: KState, m: Ptr, n: nat)
    requires KInv(k) && IsObject(k, m, MCB)
    ensures Objects(MbxWait(k, m, n))
  {
    hide Objects, AtRest, Block, QueueRun, Wake;
    var run, b := k.c.run, At(k.mbx, m, NO_MAILBOX);
    ObjectAt(k, m);
    RunIsTask(k.c);
    if b.count > 0 {
      var b1 := b.(last := Step(b.last, b.size));
      if k.List(m) != [] && b.state == 2 {
        var b2 := Store(b1, At(k.msg, k.List(m)[0], 0));
        SetMailboxKept(k, m, b2, Message(Oldest(b)));
        WakeKept(k.(mbx := k.mbx[m := b2], ret := k.ret[run := Message(Oldest(b))]), m, Val(0));
      } else {
        SetMailboxKept(k, m, b1.(count := b.count - 1), Message(Oldest(b)));
      }
    } else if n == 0 {
      ReturnKept(k, OS_R_TMO);
    } else {
      MbxBlockKept(k, m, 1, k.msg, n);
    }
  }

  // ----- tasks, ticks and interrupt requests

  lemma CalmTask(c: Core, t: Ptr, p: nat)
    ensures Calm(c, TskPass(c), RDY, NULL) && TskPass(c).active == c.active
    ensures Calm(c, TskPrio(c, t, p), RDY, NULL) && TskPrio(c, t, p).active == c.active
  {
    hide Calm, Reprio, PreemptCheck, Dispatch;
    CalmPass(c);
    CalmReady(c, c, RDY, NULL);
    var u := if t == NULL || (t in c.active && t == c.run) then c.run else t;
    var c1 := Reprio(c, u, p);
    CalmReprio(c, u, p, RDY, NULL);
    ReprioFields(c, u, p);
    CalmDispatch(c1, NULL, RDY, NULL);
    CalmTrans(c, c1, PreemptCheck(c1), RDY, NULL);
    PreemptCheckTouches(c1);
    if c1.Ready() != [] {
      var c2 := PopReady(c1);
      CalmPop(c1);
      CalmDispatch(c2, c1.Ready()[0], RDY, NULL);
      CalmTrans(c, c1, c2, RDY, NULL);
      CalmTrans(c, c2, Dispatch(c2, c1.Ready()[0]), RDY, NULL);
      DispatchTouches(c2, c1.Ready()[0]);
    }
  }

  lemma CalmPop(c: Core)
    ensures Calm(c, PopReady(c), RDY, NULL)
  {
  }

  lemma CalmPass(c: Core)
    ensures Calm(c, TskPass(c), RDY, NULL) && TskPass(c).active == c.active
  {
    hide Ins;
  }

  lemma SameCore(k: KState, k': KState)
    requires k' == k.(c := k'.c, ret := k'.ret) && (forall t :: t in k.ret ==> t in k'.ret)
    requires k.c.active <= k'.c.active || OwnersActive(k, k'.c.active, RDY)
    ensures Same(k, k', RDY, NULL)
  {
    hide OwnersActive;
  }

  lemma DeleteFields(k: KState, t: Ptr)
    requires KInv(k) && Legal(k, Delete(t))
    ensures var k' := Apply(k, Delete(t));
            && k' == k.(c := TskDelete(k.c, t), ret := k'.ret) && forall x :: x in k.ret ==> x in k'.ret
    ensures OwnsNothing(k, if t == NULL then k.c.run else t)
  {
    hide TskDelete, OwnsNothing, AtRest, Objects;
  }

  lemma DeleteKept(k: KState, t: Ptr)
    requires KInv(k) && Legal(k, Delete(t))
    ensures Objects(Apply(k, Delete(t)))
  {
    hide Objects, AtRest, Calm, Apply, Legal, TskDelete, Same, OwnsNothing;
    var k' := Apply(k, Delete(t));
    DeleteFields(k, t);
    RunIsTask(k.c);
    DeleteCalm(k.c, t);
    CalmTasks(k.c, k'.c, RDY, NULL);
    OwnersStay(k, if t == NULL then k.c.run else t, k'.c.active);
    SameCore(k, k');
    ObjectsKept(k, k', RDY, NULL);
  }

  lemma OwnersStay(k: KState, t: Ptr, active: set<Ptr>)
    requires Objects(k) && OwnsNothing(k, t) && k.c.active - {t} <= active
    ensures OwnersActive(k, active, RDY)
  {
    forall h | IsObject(k, h, MUCB) && h in k.mut && k.mut[h].level > 0
      ensures k.mut[h].owner in active
    {
      assert ObjectOk(k, h);
    }
  }

  lemma DeleteCalm(c: Core, t: Ptr)
    ensures Calm(c, TskDelete(c, t), RDY, NULL)
    ensures c.active - {if t == NULL then c.run else t} <= TskDelete(c, t).active
  {
    hide DispatchNext, DelayDrop;
    if t == NULL || t == c.run {
      var c1 := c.(active := c.active - {c.run}, state := c.state[c.run := INACTIVE]);
      assert Calm(c, c1, RDY, NULL);
      CalmDispatch(c1, NULL, RDY, NULL);
      CalmTrans(c, c1, DispatchNext(c1), RDY, NULL);
      PreemptCheckTouches(c1);
    }
  }

  lemma CreateKept(k: KState, t: Ptr, p: nat)
    requires KInv(k) && Legal(k, Create(t, p))
    ensures Objects(Apply(k, Create(t, p)))
  {
    hide Objects, AtRest, Dispatch, Calm, HasAll, HasAny;
    var c, k' := k.c, Apply(k, Create(t, p));
    var c1 := c.(g := Fresh(c.g, t), active := c.active + {t}, prio := c.prio[t := p], state := c.state[t := READY]);
    CalmCreate(c, t, p, c1);
    CalmDispatch(c1, t, RDY, t);
    CalmTrans(c, c1, Dispatch(c1, t), RDY, t);
    DispatchedState(c1, t);
    CalmTasks(c, k'.c, RDY, t);
    KeptFlags(k, t, k'.c, k.ret, k.events[t := 0], k.waits[t := 0]);
  }

  lemma CalmCreate(c: Core, t: Ptr, p: nat, c1: Core)
    requires c1 == c.(g := Fresh(c.g, t), active := c.active + {t}, prio := c.prio[t := p], state := c.state[t := READY])
    ensures Calm(c, c1, RDY, t)
  {
  }

  lemma TickKept(k: KState)
    requires Objects(k) && NULL !in k.c.g.tasks
    ensures Objects(Tick(k))
  {
    hide Objects, Calm, ReadyAt, Rotate, DecDly, DispatchNext, ChkRobin;
    var c0 := ReadyAt(k.c, 0, k.c.run);
    var c1 := ChkRobin(k.(c := c0)).c;
    RobinChanges(k.(c := c0));
    CalmFront(k.c);
    CalmReady(c0, c0, RDY, NULL);
    if c0.Ready() != [] {
      CalmRotate(c0);
    }
    TickCalm(k.c, c0, c1);
    var c2 := DispatchNext(DecDly(c1));
    CalmTasks(k.c, c2, RDY, NULL);
    KeptCore(k, c2, k.ret);
    ClockKept(k.(c := c2), Tick(k));
  }

  lemma RobinChanges(k: KState)
    ensures var k' := ChkRobin(k);
            && k' == k.(c := k'.c, robin := k'.robin)
            && (k'.c == k.c || (k.c.Ready() != [] && k'.c == Rotate(k.c)))
  {
    hide NextRobin, Rotate;
  }

  lemma TickCalm(c: Core, c0: Core, c1: Core)
    requires Calm(c, c0, RDY, NULL) && Calm(c0, c1, RDY, NULL) && c0.active == c.active && c1.active == c0.active
    ensures var c2 := DispatchNext(DecDly(c1));
            Calm(c, c2, RDY, NULL) && c2.active == c.active
  {
    hide Calm, DecDly, DispatchNext;
    CalmTrans(c, c0, c1, RDY, NULL);
    CalmDecDly(c1);
    CalmTrans(c, c1, DecDly(c1), RDY, NULL);
    CalmDispatch(DecDly(c1), NULL, RDY, NULL);
    CalmTrans(c, DecDly(c1), DispatchNext(DecDly(c1)), RDY, NULL);
    PreemptCheckTouches(DecDly(c1));
  }

  lemma ClockKept(k: KState, k': KState)
    requires Objects(k) && k' == k.(robin := k'.robin, time := k'.time)
    ensures Objects(k')
  {
    assert forall h :: h in k.c.g.lists && h != RDY ==> ObjectOk(k, h);
    assert forall t :: t in k.c.g.tasks ==> FlagsOk(k, t);
  }

  lemma CalmFront(c: Core)
    ensures Calm(c, ReadyAt(c, 0, c.run), RDY, NULL) && ReadyAt(c, 0, c.run).active == c.active
  {
  }

  lemma CalmRotate(c: Core)
    requires c.Ready() != []
    ensures Calm(c, Rotate(c), RDY, NULL) && Rotate(c).active == c.active
  {
  }

  lemma CalmDecDly(c: Core)
    ensures Calm(c, DecDly(c), RDY, NULL) && DecDly(c).active == c.active
  {
    CalmExpire(c);
    assert Calm(Expire(c), DecDly(c), RDY, NULL);
    CalmTrans(c, Expire(c), DecDly(c), RDY, NULL);
  }

  lemma {:induction false} CalmExpire(c: Core)
    ensures Calm(c, Expire(c), RDY, NULL) && Expire(c).active == c.active
    decreases |c.d|
  {
    hide Calm;
    CalmReady(c, c, RDY, NULL);
    if c.d != [] && c.d[0].rem == 1 {
      CalmTimeUp(c);
      CalmExpire(TimeUp(c));
      CalmTrans(c, TimeUp(c), Expire(c), RDY, NULL);
    }
  }

  lemma CalmTimeUp(c: Core)
    requires c.d != []
    ensures Calm(c, TimeUp(c), RDY, NULL)
  {
    hide ToReady;
    var c1 := c.(g := Unlink(c.g, c.d[0].task), d := c.d[1..]);
    assert Calm(c, c1, RDY, NULL);
    CalmDispatch(c1, c.d[0].task, RDY, NULL);
    CalmTrans(c, c1, TimeUp(c), RDY, NULL);
  }

  lemma PushKept(k: KState, q: Request)
    requires Objects(k) && RequestOk(k, q) && NULL !in k.c.g.tasks && k.c.active <= k.c.g.tasks
    ensures Objects(Push(k, q))
  {
    hide Objects, WakeReady, StoreToken, EvtPsh;
    match q {
      case SemReq(h) =>
        if k.List(h) != [] {
          WakeKept(k, h, Val(1));
        } else {
          StoreTokenKept(k, h);
        }
      case EvtReq(t, flags) => EvtSetKept(k, t, flags);
    }
  }

  lemma {:induction false} PushAllKept(k: KState, qs: seq<Request>)
    requires Objects(k) && NULL !in k.c.g.tasks && k.c.active <= k.c.g.tasks
    requires forall i :: 0 <= i < |qs| ==> RequestOk(k, qs[i])
    ensures Objects(PushAll(k, qs))
    decreases |qs|
  {
    hide Objects, RequestOk, Push;
    if qs != [] {
      PushKept(k, qs[0]);
      PushTasks(k, qs[0]);
      forall i | 0 <= i < |qs[1..]|
        ensures RequestOk(Push(k, qs[0]), qs[1..][i])
      {
        PushTypes(k, qs[0], qs[1..][i]);
      }
      PushAllKept(Push(k, qs[0]), qs[1..]);
    }
  }

  lemma PushTasks(k: KState, q: Request)
    ensures Push(k, q).c.g.tasks == k.c.g.tasks && Push(k, q).c.active == k.c.active
  {
    hide ToReady, DelayDrop, Signal, Completes, ReadyOnly, StoreToken;
    match q {
      case SemReq(h) =>
        if k.List(h) != [] {
          ReadyTasks(WakeFirst(k.c, h), k.List(h)[0]);
        } else {
          TokenTasks(k, h);
        }
      case EvtReq(t, flags) =>
        ReadyTasks(Signal(k, t, flags).c, t);
        SignalTasks(k, t, flags);
    }
  }

  lemma TokenTasks(k: KState, h: Ptr)
    ensures StoreToken(k, h).c == k.c
  {
  }

  lemma ReadyTasks(c: Core, t: Ptr)
    ensures ToReady(c, t).g.tasks == c.g.tasks && ToReady(c, t).active == c.active
  {
  }

  lemma SignalTasks(k: KState, t: Ptr, flags: bv16)
    ensures Signal(k, t, flags).c.g == k.c.g && Signal(k, t, flags).c.active == k.c.active
  {
    hide Completes, DelayDrop, Without, Merge, Common;
  }

  lemma PopReqKept(k: KState, qs: seq<Request>)
    requires KInv(k) && Legal(k, PendSV(qs))
    ensures Objects(PopReq(k, qs))
  {
    hide Objects, AtRest, PushAll, DispatchNext, Calm, ReadyAt;
    RunIsTask(k.c);
    var k0 := k.(c := ReadyAt(k.c, 0, k.c.run));
    CalmFront(k.c);
    CalmTasks(k.c, k0.c, RDY, NULL);
    KeptCore(k, k0.c, k.ret);
    forall i | 0 <= i < |qs|
      ensures RequestOk(k0, qs[i])
    {
      FrontTypes(k, qs[i]);
    }
    PushAllKept(k0, qs);
    var k1 := PushAll(k0, qs);
    PushAllTasks(k0, qs);
    CalmDispatch(k1.c, NULL, RDY, NULL);
    PreemptCheckTouches(k1.c);
    CalmTasks(k1.c, DispatchNext(k1.c), RDY, NULL);
    KeptCore(k1, DispatchNext(k1.c), k1.ret);
  }

  lemma FrontTypes(k: KState, q: Request)
    requires RequestOk(k, q)
    ensures RequestOk(k.(c := ReadyAt(k.c, 0, k.c.run)), q)
  {
  }

  lemma {:induction false} PushAllTasks(k: KState, qs: seq<Request>)
    ensures PushAll(k, qs).c.g.tasks == k.c.g.tasks
    decreases |qs|
  {
    if qs != [] {
      PushTasks(k, qs[0]);
      PushAllTasks(Push(k, qs[0]), qs[1..]);
    }
  }

  lemma TaskCallKept(k: KState, t: Ptr, p: nat)
    requires KInv(k)
    ensures Objects(Apply(k, Pass)) && Objects(Apply(k, SetPrio(t, p)))
  {
    hide Objects, AtRest, TskPass, TskPrio, Calm;
    RunIsTask(k.c);
    CalmTask(k.c, t, p);
    CalmTasks(k.c, TskPass(k.c), RDY, NULL);
    CalmTasks(k.c, TskPrio(k.c, t, p), RDY, NULL);
    KeptCore(k, TskPass(k.c), k.ret);
    KeptCore(k, TskPrio(k.c, t, p), Apply(k, SetPrio(t, p)).ret);
  }

  lemma WaitKept(k: KState, n: nat)
    requires KInv(k)
    ensures Objects(Apply(k, Wait(n)))
  {
    hide Objects, AtRest, Block, Calm, HasAll, HasAny;
    var run, c' := k.c.run, Block(k.c, n, WAIT_DLY);
    RunIsTask(k.c);
    FlagsAt(k, run);
    CalmBlock(k.c, RDY, n, WAIT_DLY, false);
    BlockedCore(k.c, RDY, n, WAIT_DLY, false);
    CalmTasks(k.c, c', RDY, run);
    KeptFlags(k, run, c', k.ret, k.events, k.waits);
  }

  lemma MutDeleteKept(k: KState, m: Ptr)
    requires KInv(k) && IsObject(k, m, MUCB)
    ensures Objects(MutDelete(k, m))
  {
    hide Objects, AtRest, Discard, Reprio, Calm;
    var mu := At(k.mut, m, FREE);
    var c1 := if mu.level != 0 then Reprio(k.c, mu.owner, mu.prio) else k.c;
    RunIsTask(k.c);
    CalmReprio(k.c, mu.owner, mu.prio, RDY, NULL);
    ReprioFields(k.c, mu.owner, mu.prio);
    ReprioLists(k.c, mu.owner, mu.prio);
    CalmReady(k.c, k.c, RDY, NULL);
    KeptCore(k, c1, k.ret);
    DiscardKept(k.(c := c1), m);
  }

  /** A new object, whose control block becomes k'. */
  lemma InitKept(k: KState, h: Ptr, ty: Kind, k': KState)
    requires KInv(k) && IsObject(k, h, TCB) && (ty == SCB || ty == MUCB || ty == MCB)
    requires k' == k.(c := k.c.(kind := k.c.kind[h := ty]), tokens := k'.tokens, mut := k'.mut, mbx := k'.mbx)
    requires if ty == SCB then
               h in k'.tokens && k'.tokens == k.tokens[h := k'.tokens[h]] && k'.tokens[h] < 0x1_0000 && k'.mut == k.mut && k'.mbx == k.mbx
             else if ty == MUCB then
               k'.tokens == k.tokens && k'.mut == k.mut[h := FREE] && k'.mbx == k.mbx
             else
               exists size: nat :: k'.tokens == k.tokens && k'.mut == k.mut && size >= 1 && k'.mbx == k.mbx[h := EmptyMailbox(size)]
    ensures Objects(k')
  {
    hide Objects, AtRest, Calm, Same, ObjectOk, FlagsOk;
    RunIsTask(k.c);
    NewSettles(k.c, h, ty);
    CalmReady(k.c, k.c, h, NULL);
    CalmRetype(k.c, k.c, h, ty);
    NewOk(k, h, ty, k');
    NewSame(k, h, ty, k');
    ObjectsKept(k, k', h, NULL);
  }

  lemma NewOk(k: KState, h: Ptr, ty: Kind, k': KState)
    requires AtRest(k.c) && IsObject(k, h, TCB) && (ty == SCB || ty == MUCB || ty == MCB)
    requires k'.c == k.c.(kind := k.c.kind[h := ty]) && k.List(h) == []
    requires ty == SCB ==> h in k'.tokens && k'.tokens[h] < 0x1_0000
    requires ty == MUCB ==> h in k'.mut && k'.mut[h] == FREE
    requires ty == MCB ==> h in k'.mbx && exists size: nat :: size >= 1 && k'.mbx[h] == EmptyMailbox(size)
    ensures ObjectOk(k', h)
  {
    hide AtRest;
    assert k'.List(h) == [];
  }

  lemma NewSame(k: KState, h: Ptr, ty: Kind, k': KState)
    requires k' == k.(c := k.c.(kind := k.c.kind[h := ty]), tokens := k'.tokens, mut := k'.mut, mbx := k'.mbx)
    requires forall x :: x != h ==>
               && (x in k.tokens ==> x in k'.tokens && k'.tokens[x] == k.tokens[x])
               && (x in k.mut ==> x in k'.mut && k'.mut[x] == k.mut[x])
               && (x in k.mbx ==> x in k'.mbx && k'.mbx[x] == k.mbx[x])
    ensures Same(k, k', h, NULL)
  {
  }

  lemma ServiceKept(k: KState, a: Call)
    requires KInv(k) && Legal(k, a) && IsService(a)
    ensures Objects(Apply(k, a))
  {
    hide Objects, AtRest, MutWait, MutRelease, MutDelete, SemSend, SemWait, Discard, EvtSet, EvtWait, EvtClr, MbxSend, MbxWait;
    match a {
      case SendSem(h) => SemSendKept(k, h);
      case WaitSem(h, n) => SemWaitKept(k, h, n);
      case DeleteSem(h) =>
        RunIsTask(k.c);
        DiscardKept(k, h);
      case SetEvt(t, flags) => EvtKept(k, t, flags, 0, false);
      case WaitEvt(flags, n, and) => EvtKept(k, NULL, flags, n, and);
      case ClrEvt(t, flags) => EvtKept(k, t, flags, 0, false);
      case WaitMut(m, n) => MutWaitKept(k, m, n);
      case ReleaseMut(m) => MutReleaseKept(k, m);
      case DeleteMut(m) => MutDeleteKept(k, m);
      case SendMbx(m, x, n) => MbxSendKept(k, m, x, n);
      case WaitMbx(m, n) => MbxWaitKept(k, m, n);
    }
  }

  lemma TaskAndTimeKept(k: KState, a: Call)
    requires KInv(k) && Legal(k, a) && !IsService(a)
    ensures Objects(Apply(k, a))
  {
    hide Objects, AtRest, Block, TskPass, TskPrio, TskDelete, TskCreate, PopReq, Tick;
    match a {
      case Pass => TaskCallKept(k, NULL, 0);
      case SetPrio(t, p) => TaskCallKept(k, t, p);
      case Delete(t) => DeleteKept(k, t);
      case Create(t, p) => CreateKept(k, t, p);
      case Wait(n) => WaitKept(k, n);
      case InitSem(h, count) => InitKept(k, h, SCB, Apply(k, a));
      case InitMut(h) => InitKept(k, h, MUCB, Apply(k, a));
      case InitMbx(h, size) => InitKept(k, h, MCB, Apply(k, a));
      case SysTick =>
        RunIsTask(k.c);
        TickKept(k);
      case PendSV(qs) => PopReqKept(k, qs);
    }
  }

  lemma CallKept(k: KState, a: Call)
    requires KInv(k) && Legal(k, a)
    ensures Objects(Apply(k, a))
  {
    hide KInv, Legal, Objects, Apply;
    if IsService(a) {
      ServiceKept(k, a);
    } else {
      TaskAndTimeKept(k, a);
    }
  }

  /** Every kernel call, tick and pass of rt_pop_req keeps the kernel invariant. */
  lemma CallKeepsInvariant(k: KState, a: Call)
    requires KInv(k) && Legal(k, a)
    ensures KInv(Do(k, a))
  {
    hide Objects, Settled, Apply;
    var k1 := Apply(k, a);
    CallSettles(k, a);
    CallKept(k, a);
    CommitRests(k1.c);
    CommitObjects(k1);
  }

  lemma CommitObjects(k: KState)
    requires Objects(k)
    ensures Objects(k.(c := Commit(k.c)))
  {
    var k' := k.(c := Commit(k.c));
    assert forall h :: h in k.c.g.lists && h != RDY ==> ObjectOk(k, h);
    assert forall t :: t in k.c.g.tasks ==> FlagsOk(k, t);
    assert forall h :: k'.List(h) == k.List(h);
  }

  /** The states of a run: each call is legal where it is made. */
  ghost predicate LegalRun(k: KState, calls: seq<Call>)
    decreases |calls|
  {
    calls == [] || (Legal(k, calls[0]) && LegalRun(Do(k, calls[0]), calls[1..]))
  }

  ghost function After(k: KState, calls: seq<Call>): (r: KState)
    requires LegalRun(k, calls)
    decreases |calls|
  {
    if calls == [] then k else After(Do(k, calls[0]), calls[1..])
  }

  /** The kernel invariant holds after every run of legal calls. */
  lemma {:induction false} RunKeepsInvariant(k: KState, calls: seq<Call>)
    requires KInv(k) && LegalRun(k, calls)
    ensures KInv(After(k, calls))
    decreases |calls|
  {
    hide KInv, Do;
    if calls != [] {
      CallKeepsInvariant(k, calls[0]);
      RunKeepsInvariant(Do(k, calls[0]), calls[1..]);
    }
  }
}
