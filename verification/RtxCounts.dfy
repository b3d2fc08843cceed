/** Conservation: semaphore tokens over whole runs, and who may lower the nesting level of a mutex. */
module RtxCounts {
  import opened Links
  import opened TaskLists
  import opened RtxOrder
  import opened Delays
  import opened RtxList
  import opened RtxSched
  import opened RtxPlaces
  import opened RtxRest
  import opened RtxSpec
  import opened RtxObjects
  import opened RtxKeeps
  import opened RtxFrames

  ghost function Tokens(k: KState, h: Ptr): (n: nat) {
    At(k.tokens, h, 0)
  }

  /** Releases of semaphore h queued by interrupt handlers. */
  ghost function Queued(qs: seq<Request>, h: Ptr): (n: nat) {
    if qs == [] then 0 else (if qs[0] == SemReq(h) then 1 else 0) + Queued(qs[1..], h)
  }

  /** How often a call releases semaphore h. */
  ghost function Releases(a: Call, h: Ptr): (n: nat) {
    match a
    case SendSem(g) => if g == h then 1 else 0
    case PendSV(qs) => Queued(qs, h)
    case _ => 0
  }

  /** Queued releases of h that find a waiter. */
  ghost function QueuedGrants(k: KState, qs: seq<Request>, h: Ptr): (n: nat)
    decreases |qs|
  {
    if qs == [] then 0
    else (if qs[0] == SemReq(h) && k.List(h) != [] then 1 else 0) + QueuedGrants(Push(k, qs[0]), qs[1..], h)
  }

  /** How many tokens of h a call hands to tasks: to the caller, or to waiters that it wakes. */
  ghost function Grants(k: KState, a: Call, h: Ptr): (n: nat) {
    match a
    case SendSem(g) => if g == h && k.List(h) != [] then 1 else 0
    case WaitSem(g, _) => if g == h && Tokens(k, h) != 0 then 1 else 0
    case PendSV(qs) => QueuedGrants(k.(c := ReadyAt(k.c, 0, k.c.run)), qs, h)
    case _ => 0
  }

  /** The counter of h stands at its largest 16-bit value and nobody waits: a release sets it to 0. */
  ghost predicate Full(k: KState, h: Ptr) {
    k.List(h) == [] && Tokens(k, h) == 0xffff
  }

  /** How many queued releases of h find it full. */
  ghost function QueuedWraps(k: KState, qs: seq<Request>, h: Ptr): (n: nat)
    decreases |qs|
  {
    if qs == [] then 0 else (if qs[0] == SemReq(h) && Full(k, h) then 1 else 0) + QueuedWraps(Push(k, qs[0]), qs[1..], h)
  }

  /** How many releases of h in a call find it full. */
  ghost function WrapsIn(k: KState, a: Call, h: Ptr): (n: nat) {
    match a
    case SendSem(g) => if g == h && Full(k, h) then 1 else 0
    case PendSV(qs) => QueuedWraps(k.(c := ReadyAt(k.c, 0, k.c.run)), qs, h)
    case _ => 0
  }

  /** Nothing is lost but 65536 tokens with each wrap of the counter. */
  predicate Balanced(before: nat, released: nat, granted: nat, wraps: nat, after: nat) {
    before + released == after + granted + 0x1_0000 * wraps && after < 0x1_0000
  }

  /** One release of h, as a call or from the queue: no token is lost exactly if h is not full. */
  lemma ReleaseCounts(k: KState, h: Ptr)
    requires Tokens(k, h) < 0x1_0000
    ensures var granted := if k.List(h) != [] then 1 else 0;
            && (Tokens(SemSend(k, h), h) + granted == Tokens(k, h) + 1 <==> !Full(k, h))
            && (Tokens(SemPsh(k, h), h) + granted == Tokens(k, h) + 1 <==> !Full(k, h))
            && (Full(k, h) ==> Tokens(SemSend(k, h), h) == 0 && Tokens(SemPsh(k, h), h) == 0)
  {
    hide Dispatch, ToReady, WakeFirst;
  }

  lemma PushBalance(k: KState, q: Request, h: Ptr)
    requires Tokens(k, h) < 0x1_0000
    ensures Balanced(Tokens(k, h), if q == SemReq(h) then 1 else 0, if q == SemReq(h) && k.List(h) != [] then 1 else 0,
                     if q == SemReq(h) && Full(k, h) then 1 else 0, Tokens(Push(k, q), h))
  {
    hide EvtPsh, ToReady, WakeFirst;
    match q {
      case SemReq(_) =>
      case EvtReq(t, flags) => EvtPshFrame(k, t, flags);
    }
  }

  lemma {:induction false} PushAllBalance(k: KState, qs: seq<Request>, h: Ptr)
    requires Tokens(k, h) < 0x1_0000
    ensures Balanced(Tokens(k, h), Queued(qs, h), QueuedGrants(k, qs, h), QueuedWraps(k, qs, h), Tokens(PushAll(k, qs), h))
    decreases |qs|
  {
    hide Push, Tokens, Full;
    if qs != [] {
      PushBalance(k, qs[0], h);
      PushAllBalance(Push(k, qs[0]), qs[1..], h);
    }
  }

  /** One call: tokens before plus releases equals tokens after plus grants, and 65536 for each wrap. */
  lemma CallBalance(k: KState, a: Call, h: Ptr)
    requires Tokens(k, h) < 0x1_0000 && (a.InitSem? ==> a.obj != h)
    ensures Balanced(Tokens(k, h), Releases(a, h), Grants(k, a, h), WrapsIn(k, a, h), Tokens(Do(k, a), h))
  {
    hide Do, PushAll, ReadyAt, SemSend, SemWait, Balanced, Tokens, Full;
    match a {
      case SendSem(g) => SendBalance(k, g, h);
      case WaitSem(g, n) => WaitBalance(k, g, n, h);
      case InitSem(g, n) => InitBalance(k, g, n, h);
      case PendSV(qs) => PopBalance(k, qs, h);
      case _ => OtherBalance(k, a, h);
    }
  }

  lemma OtherBalance(k: KState, a: Call, h: Ptr)
    requires Tokens(k, h) < 0x1_0000 && !SemCall(a)
    ensures Balanced(Tokens(k, h), Releases(a, h), Grants(k, a, h), WrapsIn(k, a, h), Tokens(Do(k, a), h))
  {
    hide Do;
    CallFrame(k, a);
  }

  lemma SwitchKeeps(k: KState, a: Call)
    ensures Do(k, a).mut == Apply(k, a).mut && Do(k, a).tokens == Apply(k, a).tokens
  {
    hide Apply, Commit;
  }

  lemma PopBalance(k: KState, qs: seq<Request>, h: Ptr)
    requires Tokens(k, h) < 0x1_0000
    ensures var a := PendSV(qs);
            Balanced(Tokens(k, h), Releases(a, h), Grants(k, a, h), WrapsIn(k, a, h), Tokens(Do(k, a), h))
  {
    hide Do, PushAll, ReadyAt, Balanced, Full;
    PushAllBalance(k.(c := ReadyAt(k.c, 0, k.c.run)), qs, h);
    PopTokens(k, qs);
  }

  lemma PopTokens(k: KState, qs: seq<Request>)
    ensures Do(k, PendSV(qs)).tokens == PushAll(k.(c := ReadyAt(k.c, 0, k.c.run)), qs).tokens
  {
    hide PushAll, ReadyAt, DispatchNext;
    SwitchKeeps(k, PendSV(qs));
  }

  lemma SendBalance(k: KState, g: Ptr, h: Ptr)
    requires Tokens(k, h) < 0x1_0000
    ensures var a := SendSem(g);
            Balanced(Tokens(k, h), Releases(a, h), Grants(k, a, h), WrapsIn(k, a, h), Tokens(Do(k, a), h))
  {
    hide Return, Wake, Do;
    SwitchKeeps(k, SendSem(g));
    ReturnFrame(k, OS_R_OK);
    if k.List(g) != [] {
      WakeFrame(Return(k, OS_R_OK), g, Val(1));
    }
  }

  lemma WaitBalance(k: KState, g: Ptr, n: nat, h: Ptr)
    requires Tokens(k, h) < 0x1_0000
    ensures Balanced(Tokens(k, h), 0, Grants(k, WaitSem(g, n), h), 0, Tokens(Do(k, WaitSem(g, n)), h))
  {
    hide Return, BlockOn, Do;
    SwitchKeeps(k, WaitSem(g, n));
    if At(k.tokens, g, 0) != 0 {
      ReturnFrame(k.(tokens := k.tokens[g := At(k.tokens, g, 0) - 1]), OS_R_OK);
    } else {
      ReturnFrame(k, OS_R_TMO);
      BlockOnFrame(k, g, n, WAIT_SEM);
    }
  }

  lemma InitBalance(k: KState, g: Ptr, n: nat, h: Ptr)
    requires Tokens(k, h) < 0x1_0000 && g != h
    ensures Balanced(Tokens(k, h), 0, 0, 0, Tokens(Do(k, InitSem(g, n)), h))
  {
  }

  ghost function AllReleases(calls: seq<Call>, h: Ptr): (n: nat) {
    if calls == [] then 0 else Releases(calls[0], h) + AllReleases(calls[1..], h)
  }

  ghost function AllGrants(k: KState, calls: seq<Call>, h: Ptr): (n: nat)
    decreases |calls|
  {
    if calls == [] then 0 else Grants(k, calls[0], h) + AllGrants(Do(k, calls[0]), calls[1..], h)
  }

  ghost function AllWraps(k: KState, calls: seq<Call>, h: Ptr): (n: nat)
    decreases |calls|
  {
    if calls == [] then 0 else WrapsIn(k, calls[0], h) + AllWraps(Do(k, calls[0]), calls[1..], h)
  }

  /** No queued release of h finds it full when its turn comes. */
  ghost predicate QueueFits(k: KState, qs: seq<Request>, h: Ptr)
    decreases |qs|
  {
    qs == [] || (!(qs[0] == SemReq(h) && Full(k, h)) && QueueFits(Push(k, qs[0]), qs[1..], h))
  }

  /** The guard of each release of h in a call: h is not full where the release is made. */
  ghost predicate ReleaseFits(k: KState, a: Call, h: Ptr) {
    match a
    case SendSem(g) => g == h ==> !Full(k, h)
    case PendSV(qs) => QueueFits(k.(c := ReadyAt(k.c, 0, k.c.run)), qs, h)
    case _ => true
  }

  ghost predicate RunFits(k: KState, calls: seq<Call>, h: Ptr)
    decreases |calls|
  {
    calls == [] || (ReleaseFits(k, calls[0], h) && RunFits(Do(k, calls[0]), calls[1..], h))
  }

  lemma {:induction false} QueueFitsExactly(k: KState, qs: seq<Request>, h: Ptr)
    ensures QueueFits(k, qs, h) <==> QueuedWraps(k, qs, h) == 0
    decreases |qs|
  {
    hide Push, Full;
    if qs != [] {
      QueueFitsExactly(Push(k, qs[0]), qs[1..], h);
    }
  }

  lemma ReleaseFitsExactly(k: KState, a: Call, h: Ptr)
    ensures ReleaseFits(k, a, h) <==> WrapsIn(k, a, h) == 0
  {
    hide QueueFits, QueuedWraps, ReadyAt, Full;
    if a.PendSV? {
      QueueFitsExactly(k.(c := ReadyAt(k.c, 0, k.c.run)), a.requests, h);
    }
  }

  /**
   * Over any run that does not re-create h, initial tokens plus releases equals tokens plus grants plus 65536
   * for each wrap; so no token is lost exactly if at every release of h, called or queued, its counter is
   * below 65535 or somebody waits.
   */
  lemma {:induction false} RunBalance(k: KState, calls: seq<Call>, h: Ptr)
    requires LegalRun(k, calls) && Tokens(k, h) < 0x1_0000
    requires forall i :: 0 <= i < |calls| && calls[i].InitSem? ==> calls[i].obj != h
    ensures Balanced(Tokens(k, h), AllReleases(calls, h), AllGrants(k, calls, h), AllWraps(k, calls, h),
                     Tokens(RtxKeeps.After(k, calls), h))
    ensures Tokens(k, h) + AllReleases(calls, h) == Tokens(RtxKeeps.After(k, calls), h) + AllGrants(k, calls, h) <==>
            RunFits(k, calls, h)
    decreases |calls|
  {
    hide Do, Tokens, Legal, Grants, Releases, WrapsIn, ReleaseFits;
    if calls != [] {
      CallBalance(k, calls[0], h);
      ReleaseFitsExactly(k, calls[0], h);
      RunBalance(Do(k, calls[0]), calls[1..], h);
      RunFitsExactly(Do(k, calls[0]), calls[1..], h);
    }
  }

  lemma {:induction false} RunFitsExactly(k: KState, calls: seq<Call>, h: Ptr)
    ensures RunFits(k, calls, h) <==> AllWraps(k, calls, h) == 0
    decreases |calls|
  {
    hide Do, WrapsIn, ReleaseFits;
    if calls != [] {
      ReleaseFitsExactly(k, calls[0], h);
      RunFitsExactly(Do(k, calls[0]), calls[1..], h);
    }
  }

  /** Every release of h in the run is a call that the CMSIS layer lets through: it looks at the count first. */
  ghost predicate Checked(k: KState, calls: seq<Call>, h: Ptr)
    decreases |calls|
  {
    calls == [] || (
      && (calls[0] == SendSem(h) ==> Tokens(k, h) != 0xffff)
      && (calls[0].PendSV? ==> SemReq(h) !in calls[0].requests)
      && Checked(Do(k, calls[0]), calls[1..], h))
  }

  lemma {:induction false} NoneQueuedFits(k: KState, qs: seq<Request>, h: Ptr)
    requires SemReq(h) !in qs
    ensures QueueFits(k, qs, h)
    decreases |qs|
  {
    hide Push, Full;
    if qs != [] {
      NoneQueuedFits(Push(k, qs[0]), qs[1..], h);
    }
  }

  /** Releases by tasks alone never lose a token: their check is made where the release is. */
  lemma {:induction false} CheckedFits(k: KState, calls: seq<Call>, h: Ptr)
    requires Checked(k, calls, h)
    ensures RunFits(k, calls, h)
    decreases |calls|
  {
    hide Do, QueueFits, Tokens;
    if calls != [] {
      if calls[0].PendSV? {
        NoneQueuedFits(k.(c := ReadyAt(k.c, 0, k.c.run)), calls[0].requests, h);
      }
      CheckedFits(Do(k, calls[0]), calls[1..], h);
    }
  }

  /**
   * Interrupt handlers check the count when they queue a release. Two that find 65534 both pass, and the drain
   * leaves no token at all.
   */
  lemma QueuedReleasesWrap(k: KState, h: Ptr)
    requires Tokens(k, h) == 65534 && k.List(h) == [] && h != RDY
    ensures Tokens(Do(k, PendSV([SemReq(h), SemReq(h)])), h) == 0
    ensures !ReleaseFits(k, PendSV([SemReq(h), SemReq(h)]), h)
  {
    hide ReadyAt, DispatchNext, Do, ToReady, WakeFirst;
    var k0 := k.(c := ReadyAt(k.c, 0, k.c.run));
    var k1 := Push(k0, SemReq(h));
    var k2 := Push(k1, SemReq(h));
    SameList(k.c, h);
    var qs := [SemReq(h), SemReq(h)];
    PopTokens(k, qs);
    assert qs[1..] == [SemReq(h)] && qs[1..][1..] == [];
    assert PushAll(k2, []) == k2;
    assert PushAll(k1, qs[1..]) == k2;
    assert PushAll(k0, qs) == k2;
    assert !QueueFits(k1, qs[1..], h);
  }

  lemma SameList(c: Core, h: Ptr)
    requires h != RDY
    ensures ReadyAt(c, 0, c.run).List(h) == c.List(h)
  {
    hide Ins;
  }

  // ----- mutexes

  ghost function Control(k: KState, m: Ptr): (mu: Mutex) {
    At(k.mut, m, FREE)
  }

  /**
   * The nesting level of a taken mutex falls only when its owner releases it, or when its owner locks
   * it once more at the largest 16-bit level. Its last release passes it to the first waiter.
   */
  lemma OnlyOwnerLowers(k: KState, a: Call, m: Ptr)
    requires KInv(k) && Legal(k, a) && IsObject(k, m, MUCB) && Control(k, m).level > 0
    requires Control(Do(k, a), m) != Control(k, m)
    ensures var mu, mu', s := Control(k, m), Control(Do(k, a), m), k.List(m);
            && mu.owner == k.c.run
            && if a == ReleaseMut(m) then
                 mu' == (if mu.level > 1 || s == [] then mu.(level := mu.level - 1) else Mutex(k.c.Prio(s[0]), 1, s[0]))
               else a.WaitMut? && a.obj == m && mu' == mu.(level := if mu.level == 0xffff then 0 else mu.level + 1)
  {
    hide AtRest, Objects, Do;
    CallFrame(k, a);
    ObjectAt(k, m);
    match a {
      case WaitMut(o, n) => MutWaitControl(k, o, n);
      case ReleaseMut(o) => MutReleaseControl(k, o);
      case InitMut(o) => InitControl(k, o);
      case _ =>
    }
  }

  lemma InitControl(k: KState, m: Ptr)
    ensures Do(k, InitMut(m)).mut == k.mut[m := FREE]
  {
  }

  lemma MutWaitControl(k: KState, m: Ptr, n: nat)
    ensures var mu := At(k.mut, m, FREE);
            Do(k, WaitMut(m, n)).mut ==
            if mu.level == 0 then k.mut[m := Mutex(k.c.Prio(k.c.run), 1, k.c.run)]
            else if mu.owner == k.c.run then k.mut[m := mu.(level := U16(mu.level + 1))]
            else k.mut
  {
    hide Return, BlockOn, Reprio, U16, Do;
    var run, mu := k.c.run, At(k.mut, m, FREE);
    SwitchKeeps(k, WaitMut(m, n));
    if mu.level == 0 {
      ReturnFrame(k.(mut := k.mut[m := Mutex(k.c.Prio(run), 1, run)]), OS_R_OK);
    } else if mu.owner == run {
      ReturnFrame(k.(mut := k.mut[m := mu.(level := U16(mu.level + 1))]), OS_R_OK);
    } else if n == 0 {
      ReturnFrame(k, OS_R_TMO);
    } else {
      BlockOnFrame(k.(c := if mu.prio < k.c.Prio(run) then Reprio(k.c, mu.owner, k.c.Prio(run)) else k.c), m, n, WAIT_MUT);
    }
  }

  lemma MutReleaseControl(k: KState, m: Ptr)
    requires AtRest(k.c) && m in k.c.g.lists && m != RDY
    ensures var mu, s := At(k.mut, m, FREE), k.List(m);
            Do(k, ReleaseMut(m)).mut ==
            if mu.level == 0 || mu.owner != k.c.run then k.mut
            else if mu.level > 1 || s == [] then k.mut[m := mu.(level := mu.level - 1)]
            else k.mut[m := Mutex(k.c.Prio(s[0]), 1, s[0])]
  {
    hide AtRest, MutRelease, Do;
    var mu := At(k.mut, m, FREE);
    SwitchKeeps(k, ReleaseMut(m));
    RunNotWaiting(k.c, m);
    if mu.level == 1 && mu.owner == k.c.run && k.List(m) != [] {
      ReleaseHands(k, m);
    } else {
      ReleaseKeeps(k, m);
    }
  }

  lemma ReleaseKeeps(k: KState, m: Ptr)
    requires var mu := At(k.mut, m, FREE); mu.level != 1 || mu.owner != k.c.run || k.List(m) == []
    ensures var mu := At(k.mut, m, FREE);
            MutRelease(k, m).mut ==
            if mu.level == 0 || mu.owner != k.c.run then k.mut else k.mut[m := mu.(level := mu.level - 1)]
  {
    hide PreemptCheck, Return, HandOver;
    ReturnFrame(k, OS_R_NOK);
    ReturnFrame(k.(mut := k.mut[m := At(k.mut, m, FREE).(level := MinusOne(At(k.mut, m, FREE).level))]), OS_R_OK);
  }

  function MinusOne(n: nat): (r: nat) {
    if n == 0 then 0 else n - 1
  }

  lemma ReleaseHands(k: KState, m: Ptr)
    requires var mu := At(k.mut, m, FREE); mu.level == 1 && mu.owner == k.c.run
    requires k.List(m) != [] && k.List(m)[0] != k.c.run
    ensures MutRelease(k, m).mut == k.mut[m := Mutex(k.c.Prio(k.List(m)[0]), 1, k.List(m)[0])]
  {
    hide PreemptCheck, Return, HandOver;
    var run, mu := k.c.run, At(k.mut, m, FREE);
    var k0 := k.(mut := k.mut[m := mu.(level := 0)]);
    ReturnFrame(k0, OS_R_OK);
    var k1 := Return(k0, OS_R_OK);
    HandOverControl(k1.(c := k1.c.(prio := k1.c.prio[run := mu.prio])), m);
    SetTwice(k.mut, m, mu.(level := 0), Mutex(k.c.Prio(k.List(m)[0]), 1, k.List(m)[0]));
  }

  lemma SetTwice<V>(f: map<Ptr, V>, m: Ptr, x: V, y: V)
    ensures f[m := x][m := y] == f[m := y]
  {
  }

  lemma HandOverControl(k: KState, m: Ptr)
    requires k.List(m) != []
    ensures HandOver(k, m).mut == k.mut[m := Mutex(k.c.Prio(k.List(m)[0]), 1, k.List(m)[0])]
  {
    hide HandTo, WakeFirst;
  }

  lemma RunNotWaiting(c: Core, m: Ptr)
    requires AtRest(c) && m in c.g.lists && m != RDY
    ensures c.List(m) != [] ==> c.List(m)[0] != c.run
  {
    assert Placed(c, c.run);
  }

  /**
   * Locking a mutex keeps the mutex sound exactly when it is not its owner's 65536th nested lock while
   * others wait: that lock wraps the 16-bit level to 0, so the mutex reads as free with tasks waiting.
   */
  lemma LockSound(k: KState, m: Ptr, n: nat)
    requires KInv(k) && IsObject(k, m, MUCB) && m in k.mut && n <= NO_TIMEOUT && k.c.run != k.c.idle
    ensures MutOk(MutWait(k, m, n), m) <==>
            !(k.mut[m].owner == k.c.run && k.mut[m].level == 0xffff && k.List(m) != [])
  {
    hide Objects, AtRest, MutWait;
    ObjectAt(k, m);
    if k.mut[m].owner == k.c.run && k.mut[m].level == 0xffff && k.List(m) != [] {
      LockWraps(k, m, n);
    } else {
      MutWaitKept(k, m, n);
      ObjectAt(MutWait(k, m, n), m) by { LockLists(k, m, n); }
      LockLists(k, m, n);
    }
  }

  lemma LockWraps(k: KState, m: Ptr, n: nat)
    requires m in k.mut && k.mut[m].owner == k.c.run && k.mut[m].level == 0xffff && k.List(m) != []
    ensures !MutOk(MutWait(k, m, n), m)
  {
  }

  lemma LockLists(k: KState, m: Ptr, n: nat)
    requires AtRest(k.c) && IsObject(k, m, MUCB)
    ensures IsObject(MutWait(k, m, n), m, MUCB)
  {
    hide AtRest, Return, BlockOn, Reprio, U16;
    var run, mu := k.c.run, At(k.mut, m, FREE);
    var c := if mu.prio < k.c.Prio(run) then Reprio(k.c, mu.owner, k.c.Prio(run)) else k.c;
    ReprioLists(k.c, mu.owner, k.c.Prio(run));
    ReprioFields(k.c, mu.owner, k.c.Prio(run));
    if mu.level == 0 {
      ReturnFrame(k.(mut := k.mut[m := Mutex(k.c.Prio(run), 1, run)]), OS_R_OK);
    } else if mu.owner == run {
      ReturnFrame(k.(mut := k.mut[m := mu.(level := U16(mu.level + 1))]), OS_R_OK);
    } else if n == 0 {
      ReturnFrame(k, OS_R_TMO);
    } else {
      BlockedStays(k.(c := c), m, n);
    }
  }

  lemma BlockedStays(k: KState, m: Ptr, n: nat)
    requires IsObject(k, m, MUCB)
    ensures IsObject(BlockOn(k, m, n, WAIT_MUT), m, MUCB)
  {
    hide DispatchNext, DelayPut, Ins, InsertPos;
    var c1 := QueueRun(k.c, m);
    if n != 0 {
      var d := if n < NO_TIMEOUT then DelayPut(c1.d, c1.run, n) else c1.d;
      PreemptCheckTouches(c1.(d := d, state := c1.state[c1.run := WAIT_MUT]));
    }
  }
}
