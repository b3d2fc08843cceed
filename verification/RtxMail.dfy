/** Mailboxes over whole runs: no message is lost or duplicated, but for those of senders that give up. */
module RtxMail {
  import opened Links
  import opened TaskLists
  import opened RtxOrder
  import opened Delays
  import opened RtxList
  import opened RtxSched
  import opened RtxPlaces
  import opened RtxRest
  import opened RtxSpec
  import opened RtxObjects
  import opened RtxFrames
  import opened RtxWaits
  import RtxKeeps
  import RtxRobin

  /** The wait list of m has the same tasks, perhaps in another order, and m keeps its type. */
  ghost predicate Aside(c: Core, c': Core, m: Ptr) {
    && multiset(c'.List(m)) == multiset(c.List(m))
    && (m in c.g.lists ==> m in c'.g.lists) && At(c'.kind, m, TCB) == At(c.kind, m, TCB)
  }

  lemma AsideTrans(a: Core, b: Core, c: Core, m: Ptr)
    requires Aside(a, b, m) && Aside(b, c, m)
    ensures Aside(a, c, m)
  {
  }

  lemma AsideReady(c: Core, c': Core, m: Ptr)
    requires ReadyOnly(c, c') && m != RDY
    ensures Aside(c, c', m)
  {
  }

  lemma AsideMoves(c: Core, t: Ptr, m: Ptr)
    requires m != RDY
    ensures Aside(c, Dispatch(c, t), m) && Aside(c, ToReady(c, t), m)
    ensures Aside(c, PreemptCheck(c), m) && Aside(c, DispatchNext(c), m)
  {
    hide Aside, ReadyOnly, Dispatch, ToReady, PreemptCheck, DispatchNext;
    DispatchTouches(c, t);
    PreemptCheckTouches(c);
    AsideReady(c, Dispatch(c, t), m);
    AsideReady(c, ToReady(c, t), m);
    AsideReady(c, PreemptCheck(c), m);
    AsideReady(c, DispatchNext(c), m);
  }

  lemma AsideWake(c: Core, h: Ptr, m: Ptr)
    requires c.List(h) != [] && h != m && m != RDY
    ensures Aside(c, WakeFirst(c, h), m)
    ensures Aside(c, Dispatch(WakeFirst(c, h), c.List(h)[0]), m) && Aside(c, ToReady(WakeFirst(c, h), c.List(h)[0]), m)
  {
    hide Dispatch, ToReady, DelayDrop;
    var c1 := WakeFirst(c, h);
    AsideMoves(c1, c.List(h)[0], m);
    AsideTrans(c, c1, Dispatch(c1, c.List(h)[0]), m);
    AsideTrans(c, c1, ToReady(c1, c.List(h)[0]), m);
  }

  lemma AsideBlock(c: Core, n: nat, st: TaskState, m: Ptr)
    requires m != RDY
    ensures Aside(c, Block(c, n, st), m)
  {
    hide DispatchNext, DelayPut;
    if n != 0 {
      var c1 := c.(d := if n < NO_TIMEOUT then DelayPut(c.d, c.run, n) else c.d, state := c.state[c.run := st]);
      assert Aside(c, c1, m);
      AsideMoves(c1, NULL, m);
      AsideTrans(c, c1, DispatchNext(c1), m);
    }
  }

  lemma AsideBlockOn(k: KState, h: Ptr, n: nat, st: TaskState, m: Ptr)
    requires h != m && m != RDY
    ensures Aside(k.c, BlockOn(k, h, n, st).c, m)
  {
    hide Block, Ins, InsertPos;
    var c1 := QueueRun(k.c, h);
    assert Aside(k.c, c1, m);
    AsideBlock(c1, n, st, m);
    AsideTrans(k.c, c1, Block(c1, n, st), m);
  }

  lemma {:induction false} AsideWakeAll(c: Core, h: Ptr, m: Ptr)
    requires h != m && m != RDY
    ensures Aside(c, WakeAll(c, h), m)
    decreases |c.List(h)|
  {
    hide WakeFirst, ToReady, Aside;
    if h == RDY || c.List(h) == [] {
      AsideSame(c, m);
    } else {
      var t, c1 := c.List(h)[0], WakeFirst(c, h);
      WokenShorter(c, h);
      AsideWake(c, h, m);
      AsideWakeAll(ToReady(c1, t), h, m);
      AsideTrans(c, ToReady(c1, t), WakeAll(ToReady(c1, t), h), m);
    }
  }

  lemma AsideSame(c: Core, m: Ptr)
    ensures Aside(c, c, m)
  {
  }

  lemma WokenShorter(c: Core, h: Ptr)
    requires h != RDY && c.List(h) != []
    ensures |ToReady(WakeFirst(c, h), c.List(h)[0]).List(h)| < |c.List(h)|
  {
    hide DelayDrop;
  }

  lemma BagIns<T>(s: seq<T>, i: nat, x: T)
    requires i <= |s|
    ensures multiset(Ins(s, i, x)) == multiset(s) + multiset{x}
  {
    assert s == s[..i] + s[i..];
  }

  lemma BagDel<T>(s: seq<T>, i: nat)
    requires i < |s|
    ensures multiset(Del(s, i)) + multiset{s[i]} == multiset(s)
  {
    assert s == s[..i] + [s[i]] + s[i + 1..];
  }

  /** A change of priority only moves a task within the list it is on. */
  lemma AsideReprio(c: Core, t: Ptr, p: nat, m: Ptr)
    requires m != RDY
    ensures Aside(c, Reprio(c, t, p), m)
  {
    hide Ins, Del, InsertPos;
    if OnList(c.g, t) && c.g.on[t] == m {
      var s := c.g.lists[m];
      var prio, i := c.prio[t := p], Index(s, t);
      var r := Del(s, i);
      BagDel(s, i);
      BagIns(r, InsertPos(prio, r, At(prio, t, 0)), t);
      assert Reprio(c, t, p).List(m) == Ins(r, InsertPos(prio, r, At(prio, t, 0)), t);
    }
  }

  // ----- one call that does not name m

  /** The call sends to mailbox m or receives from it. */
  predicate Names(a: Call, m: Ptr) {
    (a.SendMbx? || a.WaitMbx?) && a.obj == m
  }

  lemma AsideDiscard(k: KState, h: Ptr, m: Ptr)
    requires h != m && m != RDY
    ensures Aside(k.c, Discard(k, h).c, m)
  {
    hide WakeAll, PreemptCheck, RetAll;
    var c1 := WakeAll(k.c, h);
    AsideWakeAll(k.c, h, m);
    AsideMoves(c1, NULL, m);
    AsideTrans(k.c, c1, PreemptCheck(c1), m);
  }

  lemma AsideSem(k: KState, h: Ptr, n: nat, m: Ptr)
    requires h != m && m != RDY
    ensures Aside(k.c, SemSend(Return(k, OS_R_OK), h).c, m) && Aside(k.c, SemWait(k, h, n).c, m)
    ensures Aside(k.c, SemPsh(k, h).c, m)
  {
    hide Dispatch, ToReady, WakeFirst, BlockOn, Aside;
    AsideSame(k.c, m);
    if k.List(h) != [] {
      AsideWake(k.c, h, m);
    }
    AsideBlockOn(k, h, n, WAIT_SEM, m);
  }

  lemma AsideEvt(k: KState, t: Ptr, flags: bv16, m: Ptr)
    requires m != RDY
    ensures Aside(k.c, EvtSet(k, t, flags).c, m) && Aside(k.c, EvtPsh(k, t, flags).c, m)
  {
    hide Dispatch, ToReady, Signal, Completes, Aside;
    AsideSame(k.c, m);
    var c1 := Signal(k, t, flags).c;
    AsideSignal(k, t, flags, m);
    AsideMoves(c1, t, m);
    AsideTrans(k.c, c1, Dispatch(c1, t), m);
    AsideTrans(k.c, c1, ToReady(c1, t), m);
  }

  lemma AsideEvtWait(k: KState, flags: bv16, n: nat, and: bool, m: Ptr)
    requires m != RDY
    ensures Aside(k.c, EvtWait(k, flags, n, and).c, m)
  {
    hide Block, HasAll, HasAny, Without, Common, Aside;
    AsideSame(k.c, m);
    AsideBlock(k.c, n, if and then WAIT_AND else WAIT_OR, m);
  }

  lemma AsideSignal(k: KState, t: Ptr, flags: bv16, m: Ptr)
    ensures Aside(k.c, Signal(k, t, flags).c, m)
  {
    hide DelayDrop, Completes, Without, Merge, Common;
  }

  lemma AsideMutWait(k: KState, h: Ptr, n: nat, m: Ptr)
    requires h != m && m != RDY
    ensures Aside(k.c, MutWait(k, h, n).c, m)
  {
    hide BlockOn, Reprio, U16, Aside;
    var run, mu := k.c.run, At(k.mut, h, FREE);
    AsideSame(k.c, m);
    var c1 := if mu.prio < k.c.Prio(run) then Reprio(k.c, mu.owner, k.c.Prio(run)) else k.c;
    AsideReprio(k.c, mu.owner, k.c.Prio(run), m);
    AsideBlockOn(k.(c := c1), h, n, WAIT_MUT, m);
    AsideTrans(k.c, c1, BlockOn(k.(c := c1), h, n, WAIT_MUT).c, m);
  }

  lemma AsideHandTo(c: Core, t: Ptr, m: Ptr)
    requires m != RDY
    ensures Aside(c, HandTo(c, t), m)
  {
    hide Dispatch, ToReady, DispatchNext, Aside;
    AsideMoves(c, t, m);
    var c1 := ToReady(c, c.run);
    var c2 := ToReady(c1, t);
    AsideMoves(c, c.run, m);
    AsideMoves(c1, t, m);
    AsideMoves(c2, t, m);
    AsideTrans(c, c1, c2, m);
    AsideTrans(c, c2, DispatchNext(c2), m);
  }

  lemma AsideMutRelease(k: KState, h: Ptr, m: Ptr)
    requires h != m && m != RDY
    ensures Aside(k.c, MutRelease(k, h).c, m)
  {
    hide HandTo, WakeFirst, PreemptCheck, Aside;
    AsideSame(k.c, m);
    var mu := At(k.mut, h, FREE);
    var c1 := Lowered(k, h);
    AsideLowered(k, h, m);
    AsideMoves(c1, NULL, m);
    AsideTrans(k.c, c1, PreemptCheck(c1), m);
    if mu.level == 1 && mu.owner == k.c.run {
      LastReleaseCore(k, h);
      if c1.List(h) != [] {
        var c2 := WakeFirst(c1, h);
        AsideWake(c1, h, m);
        AsideHandTo(c2, c1.List(h)[0], m);
        AsideTrans(k.c, c1, c2, m);
        AsideTrans(k.c, c2, HandTo(c2, c1.List(h)[0]), m);
      }
    }
  }

  lemma AsideLowered(k: KState, h: Ptr, m: Ptr)
    ensures Aside(k.c, Lowered(k, h), m)
  {
  }

  lemma AsideMutDelete(k: KState, h: Ptr, m: Ptr)
    requires h != m && m != RDY
    ensures Aside(k.c, MutDelete(k, h).c, m)
  {
    hide Discard, Reprio, Aside;
    var mu := At(k.mut, h, FREE);
    AsideSame(k.c, m);
    AsideReprio(k.c, mu.owner, mu.prio, m);
    var c1 := if mu.level != 0 then Reprio(k.c, mu.owner, mu.prio) else k.c;
    AsideDiscard(k.(c := c1), h, m);
    AsideTrans(k.c, c1, Discard(k.(c := c1), h).c, m);
  }

  lemma AsideMbx(k: KState, h: Ptr, x: int, n: nat, m: Ptr)
    requires h != m && m != RDY
    ensures Aside(k.c, MbxSend(k, h, x, n).c, m) && Aside(k.c, MbxWait(k, h, n).c, m)
  {
    hide Dispatch, WakeFirst, BlockOn, Store, Oldest, Aside;
    AsideSame(k.c, m);
    if k.List(h) != [] {
      AsideWake(k.c, h, m);
    }
    var b := At(k.mbx, h, NO_MAILBOX);
    AsideBlockOn(k.(mbx := k.mbx[h := if k.List(h) == [] then b.(state := 2) else b], msg := k.msg[k.c.run := x]), h, n, WAIT_MBX, m);
    AsideBlockOn(k.(mbx := k.mbx[h := if k.List(h) == [] then b.(state := 1) else b]), h, n, WAIT_MBX, m);
  }

  lemma AsidePass(c: Core, m: Ptr)
    requires m != RDY
    ensures Aside(c, TskPass(c), m) && Aside(c, PopReady(c), m)
  {
    hide Ins, InsertPos;
  }

  lemma AsidePrio(c: Core, t: Ptr, p: nat, m: Ptr)
    requires m != RDY
    ensures Aside(c, TskPrio(c, t, p), m)
  {
    hide Reprio, PreemptCheck, Dispatch, PopReady, Aside;
    AsideSame(c, m);
    var u := if t == NULL || (t in c.active && t == c.run) then c.run else t;
    var c1 := Reprio(c, u, p);
    AsideReprio(c, u, p, m);
    AsideMoves(c1, NULL, m);
    AsideTrans(c, c1, PreemptCheck(c1), m);
    if c1.Ready() != [] {
      var c2 := PopReady(c1);
      AsidePass(c1, m);
      AsideMoves(c2, c1.Ready()[0], m);
      AsideTrans(c, c1, c2, m);
      AsideTrans(c, c2, Dispatch(c2, c1.Ready()[0]), m);
    }
  }

  lemma AsideCreate(c: Core, t: Ptr, p: nat, m: Ptr)
    requires m != RDY
    ensures Aside(c, TskCreate(c, t, p), m)
  {
    hide Dispatch;
    var c1 := c.(g := Fresh(c.g, t), active := c.active + {t}, prio := c.prio[t := p], state := c.state[t := READY]);
    assert Aside(c, c1, m);
    AsideMoves(c1, t, m);
    AsideTrans(c, c1, Dispatch(c1, t), m);
  }

  lemma {:induction false} AsidePushAll(k: KState, qs: seq<Request>, m: Ptr)
    requires m != RDY && forall i :: 0 <= i < |qs| ==> qs[i] != SemReq(m)
    ensures Aside(k.c, PushAll(k, qs).c, m)
    decreases |qs|
  {
    hide Push, Aside;
    if qs == [] {
      AsideSame(k.c, m);
    } else {
      AsidePush(k, qs[0], m);
      AsidePushAll(Push(k, qs[0]), qs[1..], m);
      AsideTrans(k.c, Push(k, qs[0]).c, PushAll(Push(k, qs[0]), qs[1..]).c, m);
    }
  }

  lemma AsidePush(k: KState, q: Request, m: Ptr)
    requires m != RDY && q != SemReq(m)
    ensures Aside(k.c, Push(k, q).c, m)
  {
    hide SemPsh, EvtPsh, Aside;
    match q {
      case SemReq(h) => AsideSem(k, h, 0, m);
      case EvtReq(t, flags) => AsideEvt(k, t, flags, m);
    }
  }

  lemma AsideFront(c: Core, m: Ptr)
    requires m != RDY
    ensures Aside(c, ReadyAt(c, 0, c.run), m) && ReadyAt(c, 0, c.run).List(m) == c.List(m)
  {
    hide Ins;
  }

  lemma AsidePop(k: KState, qs: seq<Request>, m: Ptr)
    requires m != RDY && forall i :: 0 <= i < |qs| ==> qs[i] != SemReq(m)
    ensures Aside(k.c, PopReq(k, qs).c, m)
  {
    hide ReadyAt, PushAll, DispatchNext, Aside;
    var c0 := ReadyAt(k.c, 0, k.c.run);
    AsideFront(k.c, m);
    AsidePushAll(k.(c := c0), qs, m);
    var k1 := PushAll(k.(c := c0), qs);
    AsideTrans(k.c, c0, k1.c, m);
    AsideMoves(k1.c, NULL, m);
    AsideTrans(k.c, k1.c, DispatchNext(k1.c), m);
  }

  /** The tasks of s that time out with this tick. */
  ghost function TimedOut(d: seq<Delay>, s: seq<Ptr>): (r: seq<Ptr>) {
    if s == [] then [] else (if Delay(s[0], 1) in d then [s[0]] else []) + TimedOut(d, s[1..])
  }

  lemma {:induction false} StayAndTimedOut(d: seq<Delay>, s: seq<Ptr>)
    ensures multiset(Stay(d, s)) + multiset(TimedOut(d, s)) == multiset(s)
  {
    if s != [] {
      StayAndTimedOut(d, s[1..]);
      assert s == [s[0]] + s[1..];
    }
  }

  /** The waiters of m that stop waiting without a call on m: by a time-out, or because they are deleted. */
  ghost function Leaving(k: KState, a: Call, m: Ptr): (s: seq<Ptr>) {
    match a
    case SysTick => TimedOut(k.c.d, k.List(m))
    case Delete(t) => if t in k.c.active && t != k.c.run && t in k.List(m) then [t] else []
    case _ => []
  }

  /** The rest of the waiters of m still wait, and m keeps its type. */
  ghost predicate LeftBy(k: KState, c': Core, gone: seq<Ptr>, m: Ptr) {
    && multiset(c'.List(m)) + multiset(gone) == multiset(k.List(m))
    && (m in k.c.g.lists ==> m in c'.g.lists) && At(c'.kind, m, TCB) == At(k.c.kind, m, TCB)
  }

  lemma LeftByAside(k: KState, c': Core, m: Ptr)
    requires Aside(k.c, c', m)
    ensures LeftBy(k, c', [], m)
  {
  }

  lemma LeftByTrans(k: KState, c1: Core, c2: Core, gone: seq<Ptr>, m: Ptr)
    requires LeftBy(k, c1, gone, m) && Aside(c1, c2, m)
    ensures LeftBy(k, c2, gone, m)
  {
  }

  lemma RotateLists(c: Core, m: Ptr)
    requires c.Ready() != [] && m != RDY
    ensures Rotate(c).List(m) == c.List(m) && Rotate(c).d == c.d && Rotate(c).kind == c.kind
    ensures m in c.g.lists ==> m in Rotate(c).g.lists
  {
    hide Ins, InsertPos;
  }

  lemma {:induction false} ExpireKeepsKind(c: Core, m: Ptr)
    ensures Expire(c).kind == c.kind && (m in c.g.lists ==> m in Expire(c).g.lists)
    decreases |c.d|
  {
    hide TimeUp;
    if c.d != [] && c.d[0].rem == 1 {
      TimeUpFields(c);
      TimeUpKind(c);
      ExpireKeepsKind(TimeUp(c), m);
    }
  }

  lemma TimeUpKind(c: Core)
    requires c.d != []
    ensures TimeUp(c).kind == c.kind
  {
  }

  /** The state of the lists when rt_dec_dly starts. */
  lemma TickLists(k: KState, m: Ptr)
    requires AtRest(k.c) && m in k.c.g.lists && m != RDY
    ensures var c1 := ChkRobin(k.(c := ReadyAt(k.c, 0, k.c.run))).c;
            && Sched(c1, {}, NULL) && m in c1.g.lists && c1.List(m) == k.List(m) && c1.d == k.c.d && c1.kind == k.c.kind
  {
    hide Sched, AtRest, Rotate, NextRobin, ReadyAt;
    var c0 := ReadyAt(k.c, 0, k.c.run);
    FrontKeeps(k.c);
    FrontLists(k.c, m);
    RtxRobin.RotateSched(c0);
    RotateLists(c0, m);
    var c1 := ChkRobin(k.(c := c0)).c;
    assert c1 == c0 || c1 == Rotate(c0);
  }

  lemma FrontLists(c: Core, m: Ptr)
    requires m != RDY
    ensures var c0 := ReadyAt(c, 0, c.run);
            c0.List(m) == c.List(m) && c0.d == c.d && c0.kind == c.kind && (m in c.g.lists ==> m in c0.g.lists)
  {
    hide Ins;
  }

  lemma TickLeaves(k: KState, m: Ptr)
    requires AtRest(k.c) && m in k.c.g.lists && m != RDY
    ensures LeftBy(k, Tick(k).c, TimedOut(k.c.d, k.List(m)), m)
  {
    hide Sched, AtRest, ChkRobin, ReadyAt, Expire, DispatchNext, Aside, Stay, TimedOut;
    var c1 := ChkRobin(k.(c := ReadyAt(k.c, 0, k.c.run))).c;
    TickLists(k, m);
    ExpireReleasesExactly(c1, m);
    ExpireKeepsKind(c1, m);
    StayAndTimedOut(k.c.d, k.List(m));
    var c2 := DecDly(c1);
    assert LeftBy(k, c2, TimedOut(k.c.d, k.List(m)), m);
    AsideMoves(c2, NULL, m);
    LeftByTrans(k, c2, DispatchNext(c2), TimedOut(k.c.d, k.List(m)), m);
  }

  lemma OnItsList(c: Core, t: Ptr, m: Ptr)
    requires AtRest(c) && m in c.g.lists && m != RDY && t in c.g.tasks
    ensures t in c.List(m) <==> OnList(c.g, t) && c.g.on[t] == m
  {
  }

  lemma UnlinkLeaves(c: Core, t: Ptr, m: Ptr)
    requires m in c.g.lists && (t in c.List(m) <==> OnList(c.g, t) && c.g.on[t] == m)
    ensures multiset(At(Unlink(c.g, t).lists, m, [])) + multiset(if t in c.List(m) then [t] else []) == multiset(c.List(m))
    ensures m in Unlink(c.g, t).lists
  {
    hide Del;
    if t in c.List(m) {
      BagDel(c.List(m), Index(c.List(m), t));
    }
  }

  lemma DeleteLeaves(k: KState, t: Ptr, m: Ptr)
    requires AtRest(k.c) && m in k.c.g.lists && m != RDY && k.c.active <= k.c.g.tasks
    ensures LeftBy(k, TskDelete(k.c, t), Leaving(k, Delete(t), m), m)
  {
    hide AtRest, DispatchNext, Unlink, DelayDrop, Aside;
    var c := k.c;
    if t == NULL || t == c.run {
      RunOnNoList(c, m);
      var c1 := c.(active := c.active - {c.run}, state := c.state[c.run := INACTIVE]);
      NullNotActive(c);
      assert LeftBy(k, c1, [], m);
      AsideMoves(c1, NULL, m);
      LeftByTrans(k, c1, DispatchNext(c1), [], m);
    } else if t in c.active {
      OnItsList(c, t, m);
      UnlinkLeaves(c, t, m);
    }
  }

  lemma NullNotActive(c: Core)
    requires AtRest(c)
    ensures NULL !in c.active && c.active <= c.g.tasks
  {
  }

  /** The call names other objects than m. */
  predicate Elsewhere(a: Call, m: Ptr) {
    && ((a.InitSem? || a.InitMut? || a.InitMbx? || a.SendSem? || a.WaitSem? || a.DeleteSem? || a.WaitMut? || a.ReleaseMut?
         || a.DeleteMut? || a.SendMbx? || a.WaitMbx?) ==> a.obj != m)
    && (a.PendSV? ==> forall i :: 0 <= i < |a.requests| ==> a.requests[i] != SemReq(m))
  }

  lemma NamedOthers(k: KState, a: Call, m: Ptr)
    requires Legal(k, a) && IsObject(k, m, MCB) && !Names(a, m)
    ensures Elsewhere(a, m) && m in k.c.g.lists && m != RDY
  {
    if a.PendSV? {
      assert forall i :: 0 <= i < |a.requests| ==> RequestOk(k, a.requests[i]);
    }
  }

  lemma ServiceAside(k: KState, a: Call, m: Ptr)
    requires m != RDY && Elsewhere(a, m) && IsService(a)
    ensures Aside(k.c, Apply(k, a).c, m)
  {
    hide MutWait, MutRelease, MutDelete, SemSend, SemWait, Discard, EvtSet, EvtWait, EvtClr, MbxSend, MbxWait, Aside;
    match a {
      case SendSem(h) => AsideSem(k, h, 0, m);
      case WaitSem(h, n) => AsideSem(k, h, n, m);
      case DeleteSem(h) => AsideDiscard(k, h, m);
      case SetEvt(t, flags) => AsideEvt(k, t, flags, m);
      case WaitEvt(flags, n, and) => AsideEvtWait(k, flags, n, and, m);
      case ClrEvt(t, flags) =>
        AsideSame(k.c, m);
        EvtClrFrame(k, t, flags);
      case WaitMut(h, n) => AsideMutWait(k, h, n, m);
      case ReleaseMut(h) => AsideMutRelease(k, h, m);
      case DeleteMut(h) => AsideMutDelete(k, h, m);
      case SendMbx(h, x, n) => AsideMbx(k, h, x, n, m);
      case WaitMbx(h, n) => AsideMbx(k, h, 0, n, m);
    }
  }

  lemma TaskAside(k: KState, a: Call, m: Ptr)
    requires m != RDY && Elsewhere(a, m) && !IsService(a) && !a.SysTick? && !a.Delete?
    ensures Aside(k.c, Apply(k, a).c, m)
  {
    hide Block, TskPass, TskPrio, TskCreate, PopReq, Aside;
    match a {
      case Pass => AsidePass(k.c, m);
      case SetPrio(t, p) => AsidePrio(k.c, t, p, m);
      case Create(t, p) => AsideCreate(k.c, t, p, m);
      case Wait(n) => AsideBlock(k.c, n, WAIT_DLY, m);
      case PendSV(qs) => AsidePop(k, qs, m);
      case _ => NewAside(k, a, m);
    }
  }

  lemma NewAside(k: KState, a: Call, m: Ptr)
    requires (a.InitSem? || a.InitMut? || a.InitMbx?) && a.obj != m
    ensures Aside(k.c, Apply(k, a).c, m)
  {
  }

  /** A call that does not name m takes only the waiters of Leaving from its list. */
  lemma OthersLeave(k: KState, a: Call, m: Ptr)
    requires KInv(k) && Legal(k, a) && m in k.c.g.lists && m != RDY && Elsewhere(a, m)
    ensures LeftBy(k, Apply(k, a).c, Leaving(k, a, m), m)
  {
    hide AtRest, Objects, Apply, Legal, Aside, LeftBy, TimedOut, Leaving;
    LeavingWhen(k, a, m);
    if a.SysTick? {
      TickLeaves(k, m);
      ApplyTick(k);
    } else if a.Delete? {
      NullNotActive(k.c);
      DeleteLeaves(k, a.task, m);
      ApplyDelete(k, a.task);
    } else {
      if IsService(a) {
        ServiceAside(k, a, m);
      } else {
        TaskAside(k, a, m);
      }
      LeftByAside(k, Apply(k, a).c, m);
    }
  }

  lemma LeavingWhen(k: KState, a: Call, m: Ptr)
    ensures a.SysTick? ==> Leaving(k, a, m) == TimedOut(k.c.d, k.List(m))
    ensures !a.SysTick? && !a.Delete? ==> Leaving(k, a, m) == []
  {
    hide TimedOut;
  }

  lemma ApplyTick(k: KState)
    ensures Apply(k, SysTick).c == Tick(k).c
  {
    hide Tick;
  }

  lemma ApplyDelete(k: KState, t: Ptr)
    ensures Apply(k, Delete(t)).c == TskDelete(k.c, t)
  {
    hide TskDelete, Return;
  }

  // ----- messages as multisets

  lemma BlockedJoin(msg: map<Ptr, int>, a: seq<Ptr>, b: seq<Ptr>)
    ensures Blocked(msg, a + b) == Blocked(msg, a) + Blocked(msg, b)
  {
  }

  lemma BagTail<T>(a: seq<T>, b: seq<T>, i: nat)
    requires multiset(a) == multiset(b) && a != [] && i < |b| && b[i] == a[0]
    ensures multiset(a[1..]) == multiset(Del(b, i))
  {
    hide Del;
    assert a == [a[0]] + a[1..];
    assert multiset(a) == multiset(a[1..]) + multiset{a[0]};
    BagDel(b, i);
    BagCancel(multiset(a[1..]), multiset(Del(b, i)), a[0]);
  }

  lemma BagCancel<T>(u: multiset<T>, v: multiset<T>, x: T)
    requires u + multiset{x} == v + multiset{x}
    ensures u == v
  {
    assert u == (u + multiset{x}) - multiset{x};
    assert v == (v + multiset{x}) - multiset{x};
  }

  /** The order of the senders does not matter for what they hold. */
  lemma {:induction false} BlockedBag(msg: map<Ptr, int>, a: seq<Ptr>, b: seq<Ptr>)
    requires multiset(a) == multiset(b)
    ensures multiset(Blocked(msg, a)) == multiset(Blocked(msg, b))
    decreases |a|
  {
    if a == [] {
      assert |b| == |multiset(b)| == |multiset(a)| == 0;
    } else {
      assert a[0] in multiset(b);
      var i :| 0 <= i < |b| && b[i] == a[0];
      BagTail(a, b, i);
      BlockedBag(msg, a[1..], Del(b, i));
      BlockedDel(msg, b, i);
      BagDel(Blocked(msg, b), i);
      assert Blocked(msg, a) == [At(msg, a[0], 0)] + Blocked(msg, a[1..]);
    }
  }

  lemma BlockedDel(msg: map<Ptr, int>, b: seq<Ptr>, i: nat)
    requires i < |b|
    ensures Blocked(msg, Del(b, i)) == Del(Blocked(msg, b), i)
  {
  }

  lemma BlockedSame(msg: map<Ptr, int>, msg': map<Ptr, int>, s: seq<Ptr>)
    requires forall i :: 0 <= i < |s| ==> At(msg', s[i], 0) == At(msg, s[i], 0)
    ensures Blocked(msg', s) == Blocked(msg, s)
  {
  }

  /** The messages that a call takes from m without receiving them: those of the senders that stop waiting. */
  ghost function Lost(k: KState, a: Call, m: Ptr): (x: multiset<int>)
    requires m in k.mbx
  {
    if Names(a, m) || k.mbx[m].state != 2 then multiset{} else multiset(Blocked(k.msg, Leaving(k, a, m)))
  }

  /** The messages that a call gives to m, or to a receiver that waits at m. */
  ghost function Sent(k: KState, a: Call, m: Ptr): (x: multiset<int>)
    requires m in k.mbx
  {
    if !a.SendMbx? || a.obj != m then multiset{}
    else if (k.List(m) == [] || k.mbx[m].state != 1) && k.mbx[m].count == k.mbx[m].size && a.ticks == 0 then multiset{}
    else multiset{a.msg}
  }

  /** The messages that tasks get from m with a call. */
  ghost function Received(k: KState, a: Call, m: Ptr): (x: multiset<int>)
    requires m in k.mbx && RingOk(k.mbx[m])
  {
    if !Names(a, m) then multiset{}
    else if a.SendMbx? then if k.List(m) != [] && k.mbx[m].state == 1 then multiset{a.msg} else multiset{}
    else if Messages(k, m) == [] then multiset{} else multiset{Messages(k, m)[0]}
  }

  lemma MailCommit(k: KState, a: Call, m: Ptr)
    requires m in k.mbx && RingOk(k.mbx[m])
    ensures var k' := k.(c := Commit(k.c));
            Messages(k', m) == Messages(k, m) && k'.List(m) == k.List(m) && k'.c.kind == k.c.kind && k'.mbx == k.mbx
  {
  }

  /** A call that does not name m leaves the ring of m and the messages held by its senders alone. */
  lemma OthersKeepMail(k: KState, a: Call, m: Ptr)
    requires KInv(k) && Legal(k, a) && IsObject(k, m, MCB) && m in k.mbx && !Names(a, m)
    ensures m in Apply(k, a).mbx && Apply(k, a).mbx[m] == k.mbx[m]
    ensures forall t :: t in k.List(m) ==> At(Apply(k, a).msg, t, 0) == At(k.msg, t, 0)
  {
    hide AtRest, Objects, Apply, Legal, MbxSend, MbxWait;
    NamedOthers(k, a, m);
    ApplySend(k, a);
    if a.SendMbx? {
      RunOnNoList(k.c, m);
      SendElsewhere(k, a.obj, a.msg, a.ticks, m);
    } else if a.WaitMbx? {
      WaitElsewhere(k, a.obj, a.ticks, m);
    } else if a.InitMbx? {
      InitElsewhere(k, a.obj, a.size, m);
    } else {
      CallFrame(k, a);
      DoMail(k, a);
    }
  }

  lemma DoMail(k: KState, a: Call)
    ensures Do(k, a).mbx == Apply(k, a).mbx && Do(k, a).msg == Apply(k, a).msg
  {
    hide Apply, Commit;
  }

  lemma SendElsewhere(k: KState, h: Ptr, x: int, n: nat, m: Ptr)
    requires h != m && m in k.mbx
    ensures var r := MbxSend(k, h, x, n);
            && m in r.mbx && r.mbx[m] == k.mbx[m]
            && forall t :: t != k.c.run ==> At(r.msg, t, 0) == At(k.msg, t, 0)
  {
    hide Return, Wake, BlockOn, Store;
    var run, b := k.c.run, At(k.mbx, h, NO_MAILBOX);
    if k.List(h) != [] && b.state == 1 {
      ReturnFrame(k, OS_R_OK);
      WakeFrame(Return(k, OS_R_OK), h, Message(x));
    } else if b.count == b.size {
      ReturnFrame(k, OS_R_TMO);
      BlockOnFrame(k.(mbx := k.mbx[h := if k.List(h) == [] then b.(state := 2) else b], msg := k.msg[run := x]), h, n, WAIT_MBX);
    } else {
      ReturnFrame(k.(mbx := k.mbx[h := Store(b, x).(count := b.count + 1)]), OS_R_OK);
    }
  }

  lemma WaitElsewhere(k: KState, h: Ptr, n: nat, m: Ptr)
    requires h != m && m in k.mbx
    ensures var r := MbxWait(k, h, n); m in r.mbx && r.mbx[m] == k.mbx[m] && r.msg == k.msg
  {
    hide Return, Wake, BlockOn, Store, Oldest, RtxSpec.Step;
    var run, b := k.c.run, At(k.mbx, h, NO_MAILBOX);
    var b1, k1 := b.(last := RtxSpec.Step(b.last, b.size)), k.(ret := k.ret[run := Message(Oldest(b))]);
    if k.List(h) != [] {
      WakeFrame(k1.(mbx := k.mbx[h := Store(b1, At(k.msg, k.List(h)[0], 0))]), h, Val(0));
    }
    ReturnFrame(k, OS_R_TMO);
    BlockOnFrame(k.(mbx := k.mbx[h := if k.List(h) == [] then b.(state := 1) else b]), h, n, WAIT_MBX);
  }

  lemma InitElsewhere(k: KState, h: Ptr, size: nat, m: Ptr)
    requires h != m && m in k.mbx
    ensures var r := Apply(k, InitMbx(h, size)); m in r.mbx && r.mbx[m] == k.mbx[m] && r.msg == k.msg
  {
  }

  lemma BagsAdd(ring: seq<int>, all: seq<int>, rest: seq<int>, gone: seq<int>)
    requires multiset(rest) + multiset(gone) == multiset(all)
    ensures multiset(ring + rest) + multiset(gone) == multiset(ring + all)
  {
  }

  /** What a call that does not name m does to its messages. */
  lemma OthersBalance(k: KState, a: Call, m: Ptr)
    requires KInv(k) && Legal(k, a) && IsObject(k, m, MCB) && m in k.mbx && RingOk(k.mbx[m]) && !Names(a, m)
    ensures var k' := Apply(k, a);
            && m in k'.mbx && RingOk(k'.mbx[m])
            && multiset(Messages(k', m)) + Lost(k, a, m) == multiset(Messages(k, m))
  {
    hide AtRest, Objects, Apply, Legal, Leaving, Ring, Blocked, RingOk, KInv, IsObject;
    var k', s, gone := Apply(k, a), k.List(m), Leaving(k, a, m);
    NamedOthers(k, a, m);
    OthersLeave(k, a, m);
    OthersKeepMail(k, a, m);
    if k.mbx[m].state == 2 {
      var s' := k'.List(m);
      assert multiset(s' + gone) == multiset(s);
      BlockedBag(k.msg, s' + gone, s);
      BlockedJoin(k.msg, s', gone);
      StillWaiting(s', gone, s);
      BlockedSame(k.msg, k'.msg, s');
      BagsAdd(Ring(k.mbx[m]), Blocked(k.msg, s), Blocked(k.msg, s'), Blocked(k.msg, gone));
    }
  }

  lemma StillWaiting(s': seq<Ptr>, gone: seq<Ptr>, s: seq<Ptr>)
    requires multiset(s') + multiset(gone) == multiset(s)
    ensures forall i :: 0 <= i < |s'| ==> s'[i] in s
  {
    forall i | 0 <= i < |s'|
      ensures s'[i] in s
    {
      assert s'[i] in multiset(s');
      assert s'[i] in multiset(s);
    }
  }

  lemma SendBalance(k: KState, m: Ptr, x: int, n: nat)
    requires KInv(k) && IsObject(k, m, MCB) && m in k.mbx && RingOk(k.mbx[m])
    ensures var k', a := MbxSend(k, m, x, n), SendMbx(m, x, n);
            && m in k'.mbx && RingOk(k'.mbx[m])
            && multiset(Messages(k, m)) + Sent(k, a, m) == multiset(Messages(k', m)) + Received(k, a, m)
  {
    hide AtRest, Objects, KInv, IsObject, MbxSend, RingOk, Messages, Ins, InsertPos;
    SendJoinsQueue(k, m, x, n);
    MailboxAt(k, m) by { KInvObjects(k); }
    var b := k.mbx[m];
    if !(k.List(m) != [] && b.state == 1) && b.count >= b.size && n != 0 {
      BagIns(Messages(k, m), b.count + InsertPos(k.c.prio, k.List(m), k.c.Prio(k.c.run)), x);
    }
  }

  lemma KInvObjects(k: KState)
    requires KInv(k)
    ensures Objects(k) && AtRest(k.c)
  {
  }

  lemma WaitBalance(k: KState, m: Ptr, n: nat)
    requires KInv(k) && IsObject(k, m, MCB) && m in k.mbx && RingOk(k.mbx[m])
    ensures var k', a := MbxWait(k, m, n), WaitMbx(m, n);
            && m in k'.mbx && RingOk(k'.mbx[m])
            && multiset(Messages(k, m)) == multiset(Messages(k', m)) + Received(k, a, m)
  {
    hide KInv, IsObject, MbxWait, RingOk, Messages;
    WaitTakesOldest(k, m, n);
    var q := Messages(k, m);
    if q != [] {
      assert q == [q[0]] + q[1..];
    }
  }

  /** m is still there, with its type. */
  ghost predicate Remains(c: Core, c': Core, m: Ptr) {
    (m in c.g.lists ==> m in c'.g.lists) && At(c'.kind, m, TCB) == At(c.kind, m, TCB)
  }

  lemma RemainsBlocked(k: KState, m: Ptr, n: nat, st: TaskState)
    requires m != RDY
    ensures Remains(k.c, BlockOn(k, m, n, st).c, m)
  {
    hide Block, Ins, InsertPos;
    AsideBlock(QueueRun(k.c, m), n, st, m);
  }

  lemma RemainsWoken(c: Core, m: Ptr)
    requires c.List(m) != [] && m != RDY
    ensures Remains(c, Dispatch(WakeFirst(c, m), c.List(m)[0]), m)
  {
    hide Dispatch, DelayDrop;
    AsideMoves(WakeFirst(c, m), c.List(m)[0], m);
  }

  lemma SendRemains(k: KState, m: Ptr, x: int, n: nat)
    requires m != RDY
    ensures Remains(k.c, MbxSend(k, m, x, n).c, m)
  {
    hide Dispatch, WakeFirst, BlockOn, Store, Remains;
    var b := At(k.mbx, m, NO_MAILBOX);
    if k.List(m) != [] && b.state == 1 {
      RemainsWoken(k.c, m);
    } else if b.count == b.size && n != 0 {
      RemainsBlocked(k.(mbx := k.mbx[m := if k.List(m) == [] then b.(state := 2) else b], msg := k.msg[k.c.run := x]), m, n, WAIT_MBX);
    } else {
      RemainsItself(k.c, m);
    }
  }

  lemma WaitRemains(k: KState, m: Ptr, n: nat)
    requires m != RDY
    ensures Remains(k.c, MbxWait(k, m, n).c, m)
  {
    hide Dispatch, WakeFirst, BlockOn, Store, Oldest, Remains;
    var b := At(k.mbx, m, NO_MAILBOX);
    if b.count > 0 && k.List(m) != [] && b.state == 2 {
      RemainsWoken(k.c, m);
    } else if b.count == 0 && n != 0 {
      RemainsBlocked(k.(mbx := k.mbx[m := if k.List(m) == [] then b.(state := 1) else b]), m, n, WAIT_MBX);
    } else {
      RemainsItself(k.c, m);
    }
  }

  lemma RemainsItself(c: Core, m: Ptr)
    ensures Remains(c, c, m)
  {
  }

  /** One call: messages before and sent are messages after, received and lost. */
  lemma CallMail(k: KState, a: Call, m: Ptr)
    requires KInv(k) && Legal(k, a) && IsObject(k, m, MCB) && m in k.mbx && RingOk(k.mbx[m])
    ensures var k' := Do(k, a);
            && IsObject(k', m, MCB) && m in k'.mbx && RingOk(k'.mbx[m])
            && multiset(Messages(k, m)) + Sent(k, a, m) == multiset(Messages(k', m)) + Received(k, a, m) + Lost(k, a, m)
  {
    hide KInv, Legal, Apply, RingOk, Messages, LeftBy, MbxSend, MbxWait;
    var k1 := Apply(k, a);
    if Names(a, m) {
      ApplySend(k, a);
      if a.SendMbx? {
        SendRemains(k, m, a.msg, a.ticks);
        SendBalance(k, m, a.msg, a.ticks);
      } else {
        WaitRemains(k, m, a.ticks);
        WaitBalance(k, m, a.ticks);
      }
    } else {
      OthersBalance(k, a, m);
      NamedOthers(k, a, m);
      OthersLeave(k, a, m);
      LeftObject(k, k1, Leaving(k, a, m), m);
    }
    MailCommit(k1, a, m);
  }

  lemma LeftObject(k: KState, k': KState, gone: seq<Ptr>, m: Ptr)
    requires LeftBy(k, k'.c, gone, m) && IsObject(k, m, MCB)
    ensures IsObject(k', m, MCB)
  {
  }

  lemma ApplySend(k: KState, a: Call)
    ensures a.SendMbx? ==> Apply(k, a) == MbxSend(k, a.obj, a.msg, a.ticks)
    ensures a.WaitMbx? ==> Apply(k, a) == MbxWait(k, a.obj, a.ticks)
  {
    hide MbxSend, MbxWait;
  }

  // ----- whole runs

  /** What a run sends to m, receives from it and loses. */
  datatype Traffic = Traffic(sent: multiset<int>, received: multiset<int>, lost: multiset<int>)

  ghost predicate IsMailbox(k: KState, m: Ptr) {
    KInv(k) && IsObject(k, m, MCB) && m in k.mbx && RingOk(k.mbx[m])
  }

  ghost function Total(k: KState, calls: seq<Call>, m: Ptr): (t: Traffic)
    requires IsMailbox(k, m) && RtxKeeps.LegalRun(k, calls)
    decreases |calls|
  {
    if calls == [] then Traffic(multiset{}, multiset{}, multiset{})
    else
      var a := calls[0];
      CallMail(k, a, m);
      RtxKeeps.CallKeepsInvariant(k, a);
      var t := Total(Do(k, a), calls[1..], m);
      Traffic(Sent(k, a, m) + t.sent, Received(k, a, m) + t.received, Lost(k, a, m) + t.lost)
  }

  /**
   * Over every run, what mailbox m held and was sent is what it holds, what was received from it, and the
   * messages of senders that timed out or were deleted: nothing else is lost and nothing comes twice.
   */
  lemma {:induction false} RunMail(k: KState, calls: seq<Call>, m: Ptr)
    requires IsMailbox(k, m) && RtxKeeps.LegalRun(k, calls)
    ensures var k', t := RtxKeeps.After(k, calls), Total(k, calls, m);
            && IsMailbox(k', m)
            && multiset(Messages(k, m)) + t.sent == multiset(Messages(k', m)) + t.received + t.lost
    decreases |calls|
  {
    hide KInv, Legal, Do, RingOk, Messages, Sent, Received, Lost, IsObject;
    if calls != [] {
      var a, k1 := calls[0], Do(k, calls[0]);
      CallMail(k, a, m);
      RtxKeeps.CallKeepsInvariant(k, a);
      RunMail(k1, calls[1..], m);
      var k', t := RtxKeeps.After(k1, calls[1..]), Total(k1, calls[1..], m);
      BagChain(multiset(Messages(k, m)), Sent(k, a, m), multiset(Messages(k1, m)), Received(k, a, m), Lost(k, a, m),
               t.sent, multiset(Messages(k', m)), t.received, t.lost);
    }
  }

  lemma BagChain(a: multiset<int>, s1: multiset<int>, b: multiset<int>, r1: multiset<int>, l1: multiset<int>,
                 s2: multiset<int>, c: multiset<int>, r2: multiset<int>, l2: multiset<int>)
    requires a + s1 == b + r1 + l1 && b + s2 == c + r2 + l2
    ensures a + (s1 + s2) == c + (r1 + r2) + (l1 + l2)
  {
    forall x
      ensures (a + (s1 + s2))[x] == (c + (r1 + r2) + (l1 + l2))[x]
    {
      assert (a + s1)[x] == (b + r1 + l1)[x] && (b + s2)[x] == (c + r2 + l2)[x];
    }
  }
}
