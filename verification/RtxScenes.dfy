/** Small kernel states that meet the invariant and on which a promise fails. */
module RtxScenes {
  import opened Links
  import opened TaskLists
  import opened RtxOrder
  import opened Delays
  import opened RtxList
  import opened RtxSched
  import opened RtxPlaces
  import opened RtxRest
  import opened RtxSpec
  import opened RtxObjects
  import opened RtxCounts
  import opened RtxDrain
  import opened RtxInherit

  const IDLE: Ptr := 10
  const ONE: Ptr := 11 // the running task, of priority 3
  const TWO: Ptr := 12
  const THREE: Ptr := 13
  const OBJ: Ptr := 20

  /** What the scenes differ in: the object, who waits for it, and the tasks TWO and THREE. */
  datatype Cast = Cast(
    ty: Kind, queue: seq<Ptr>, tokens: nat, mutex: Mutex,
    active: set<Ptr>, two: TaskState, three: TaskState, waits: bv16)

  ghost function Stage(s: Cast): (c: Core) {
    Core(Shape({IDLE, ONE, TWO, THREE},
               map[RDY := [IDLE], OBJ := s.queue],
               map[IDLE := RDY, ONE := NULL, TWO := if TWO in s.queue then OBJ else NULL,
                   THREE := if THREE in s.queue then OBJ else NULL],
               {}),
         [], IDLE, s.active,
         map[IDLE := TCB, ONE := TCB, TWO := TCB, THREE := TCB, RDY := HCB, OBJ := s.ty],
         map[IDLE := 0, ONE := 3, TWO := 5, THREE := 5],
         map[IDLE := READY, ONE := RUNNING, TWO := s.two, THREE := s.three],
         ONE, ONE)
  }

  ghost function Scene(s: Cast): (k: KState) {
    KState(Stage(s),
           map[IDLE := 0, ONE := 0, TWO := 0, THREE := 0], map[IDLE := 0, ONE := 0, TWO := s.waits, THREE := 0],
           map[IDLE := 0, ONE := 0, TWO := 0, THREE := 0],
           map[IDLE := Code(OS_R_OK), ONE := Code(OS_R_OK), TWO := Code(OS_R_OK), THREE := Code(OS_R_OK)],
           map[OBJ := s.tokens], map[OBJ := s.mutex], map[], Robin(NULL, 0, 5), 0)
  }

  /** The two other tasks are where their states say. */
  ghost predicate Fitting(s: Cast) {
    && s.active <= {ONE, TWO, THREE} && ONE in s.active
    && (s.queue == [] || s.queue == [TWO] || s.queue == [THREE])
    && (s.queue != [] ==> IsWaitKind(s.ty))
    && PlaceOk(TWO in s.active, s.two, if TWO in s.queue then OBJ else NULL, s.ty, false)
    && PlaceOk(THREE in s.active, s.three, if THREE in s.queue then OBJ else NULL, s.ty, false)
    && s.two != RUNNING && s.three != RUNNING
  }

  lemma StageSeparate(s: Cast)
    requires Fitting(s)
    ensures Separate(Stage(s).g)
  {
  }

  lemma StagePlaces(s: Cast)
    requires Fitting(s)
    ensures Places(Stage(s), {}, ONE)
  {
    var c := Stage(s);
    assert Tasks(c.d) == [];
    assert Placed(c, IDLE) && Placed(c, ONE) && Placed(c, TWO) && Placed(c, THREE);
  }

  lemma StageFields(s: Cast)
    requires Fitting(s)
    ensures Typed(Stage(s).g, Stage(s).kind) && Fields(Stage(s))
  {
  }

  lemma StageOrder(s: Cast)
    requires Fitting(s)
    ensures Ordered(Stage(s)) && DelayOk(Stage(s).d) && Tops(Stage(s), ONE)
  {
    assert Tasks(Stage(s).d) == [];
  }

  lemma StageRests(s: Cast)
    requires Fitting(s)
    ensures AtRest(Stage(s))
  {
    hide Places, Separate, Typed, Fields, Ordered, DelayOk, Tops, Fitting;
    StageSeparate(s);
    StagePlaces(s);
    StageFields(s);
    StageOrder(s);
  }

  lemma SceneFlags(s: Cast, t: Ptr)
    requires t in {IDLE, ONE, TWO, THREE}
    requires TWO in s.active ==> s.two != WAIT_OR && s.two != WAIT_AND
    requires THREE in s.active ==> s.three != WAIT_OR && s.three != WAIT_AND
    ensures FlagsOk(Scene(s), t)
  {
    hide HasAll, HasAny;
  }

  lemma SceneInv(s: Cast)
    requires Fitting(s) && ObjectOk(Scene(s), OBJ)
    requires TWO in s.active ==> s.two != WAIT_OR && s.two != WAIT_AND
    requires THREE in s.active ==> s.three != WAIT_OR && s.three != WAIT_AND
    ensures KInv(Scene(s))
  {
    hide AtRest, FlagsOk, ObjectOk, Fitting;
    StageRests(s);
    var k := Scene(s);
    forall t | t in k.c.g.tasks
      ensures FlagsOk(k, t)
    {
      SceneFlags(s, t);
    }
  }

  // ----- the scenes

  /** ONE holds the mutex at its largest level, and TWO waits for it. */
  ghost function FullMutex(): (s: Cast) {
    Cast(MUCB, [TWO], 0, Mutex(3, 0xffff, ONE), {ONE, TWO}, WAIT_MUT, INACTIVE, 0)
  }

  /** TWO, of priority 1 at its lock, was raised to 5 by THREE, which waits for the mutex. */
  ghost function RaisedOwner(): (s: Cast) {
    Cast(MUCB, [THREE], 0, Mutex(1, 1, TWO), {ONE, TWO, THREE}, WAIT_DLY, WAIT_MUT, 0)
  }

  /** One more release than fits. */
  ghost function NearlyFull(): (s: Cast) {
    Cast(SCB, [], 65534, FREE, {ONE}, INACTIVE, INACTIVE, 0)
  }

  /** TWO was deleted while it waited for flag 1. */
  ghost function DeadWaiter(): (s: Cast) {
    Cast(SCB, [], 0, FREE, {ONE}, WAIT_OR, INACTIVE, 1)
  }

  /** The semaphore was deleted. */
  ghost function Deleted(): (s: Cast) {
    Cast(TCB, [], 0, FREE, {ONE}, INACTIVE, INACTIVE, 0)
  }

  /** The block is a new mutex now. */
  ghost function NewMutex(): (s: Cast) {
    Cast(MUCB, [], 0, FREE, {ONE}, INACTIVE, INACTIVE, 0)
  }

  /** It was a mutex once that a task of priority 6 had locked, and was deleted. */
  ghost function FormerMutex(): (s: Cast) {
    Cast(TCB, [], 0, Mutex(6, 1, ONE), {ONE}, INACTIVE, INACTIVE, 0)
  }

  lemma SceneHas(s: Cast)
    ensures var k := Scene(s);
            && k.List(OBJ) == s.queue && OBJ in k.c.g.lists && At(k.c.kind, OBJ, TCB) == s.ty
            && At(k.mut, OBJ, FREE) == s.mutex && k.mut == map[OBJ := s.mutex] && k.c.run == ONE && k.c.idle == IDLE
            && At(k.tokens, OBJ, 0) == s.tokens && OBJ in k.tokens && k.c.active == s.active
            && k.c.Prio(ONE) == 3 && k.c.Prio(TWO) == 5 && k.c.Prio(THREE) == 5 && k.c.g.tasks == {IDLE, ONE, TWO, THREE}
  {
  }

  /** The 65536th nested lock by an owner, while another task waits, makes the mutex read as free. */
  lemma LockUnsound()
    ensures var k := Scene(FullMutex());
            && KInv(k) && IsObject(k, OBJ, MUCB) && k.c.run != k.c.idle
            && !MutOk(MutWait(k, OBJ, NO_TIMEOUT), OBJ) && At(MutWait(k, OBJ, NO_TIMEOUT).mut, OBJ, FREE).level == 0
  {
    hide KInv, Scene, MutWait, MutOk;
    var s := FullMutex();
    SceneHas(s);
    SceneMutex(s);
    LockSound(Scene(s), OBJ, NO_TIMEOUT);
    Relocked(Scene(s), OBJ, NO_TIMEOUT);
  }

  lemma SceneMutex(s: Cast)
    requires Fitting(s) && s.ty == MUCB && 0 < s.mutex.level < 0x1_0000 && s.mutex.owner in s.active
    requires TWO in s.active ==> s.two != WAIT_OR && s.two != WAIT_AND
    requires THREE in s.active ==> s.three != WAIT_OR && s.three != WAIT_AND
    ensures KInv(Scene(s)) && MutOk(Scene(s), OBJ) && OBJ in Scene(s).mut
  {
    hide KInv, Scene, Fitting;
    SceneHas(s);
    SceneInv(s);
  }

  lemma InvRests(k: KState)
    requires KInv(k)
    ensures AtRest(k.c)
  {
    hide AtRest, Objects;
  }

  lemma Relocked(k: KState, m: Ptr, n: nat)
    requires At(k.mut, m, FREE).owner == k.c.run && At(k.mut, m, FREE).level == 0xffff
    ensures At(MutWait(k, m, n).mut, m, FREE).level == 0
  {
    hide BlockOn;
  }

  lemma SemScene(s: Cast)
    requires Fitting(s) && s.ty == SCB && s.queue == [] && s.tokens < 0x1_0000
    requires TWO in s.active ==> s.two != WAIT_OR && s.two != WAIT_AND
    requires THREE in s.active ==> s.three != WAIT_OR && s.three != WAIT_AND
    ensures KInv(Scene(s))
  {
    hide KInv, Scene, Fitting;
    SceneHas(s);
    SceneInv(s);
  }

  /** Two interrupt handlers release a semaphore of 65534 tokens, and the drain leaves none. */
  lemma TokensLost()
    ensures var k, a := Scene(NearlyFull()), PendSV([SemReq(OBJ), SemReq(OBJ)]);
            && KInv(k) && Legal(k, a) && Tokens(k, OBJ) == 65534 && Tokens(Do(k, a), OBJ) == 0
  {
    hide KInv, Scene, Do;
    var s := NearlyFull();
    SemScene(s);
    SceneHas(s);
    QueuedReleasesWrap(Scene(s), OBJ);
  }

  lemma DeadCompletes()
    ensures Completes(Scene(DeadWaiter()), TWO, 1)
    ensures forall t :: t in {IDLE, ONE, TWO, THREE} ==> t in Scene(DeadWaiter()).events
  {
    var e: bv16 := 0;
    assert Merge(e, 1) == 1 && HasAny(1, 1);
  }

  /** A queued event brings back the task that was deleted while it waited for it; the call leaves it alone. */
  lemma DeadTaskRuns()
    ensures var k, qs := Scene(DeadWaiter()), [EvtReq(TWO, 1)];
            && KInv(k) && RtxDrain.Known(k, qs) && TWO !in k.c.active && CallAll(k, qs) == k
            && DrainAny(k, qs).Drained? && DrainAny(k, qs).k.c.run == TWO
  {
    hide KInv, Scene, DrainAny, CallAll;
    var s := DeadWaiter();
    SemScene(s);
    SceneHas(s);
    var k := Scene(s);
    DeadCompletes();
    InvRests(k);
    DeadTaskReturns(k, TWO, 1);
  }

  lemma OwnerPrio(k: KState, m: Ptr, n: nat)
    requires At(k.mut, m, FREE).level > 0 && At(k.mut, m, FREE).owner != k.c.run && n > 0 && m != RDY
    requires At(k.mut, m, FREE).prio < k.c.Prio(k.c.run)
    ensures MutWait(k, m, n).c.Prio(At(k.mut, m, FREE).owner) == k.c.Prio(k.c.run)
  {
    hide BlockOn, Reprio;
    var owner, p := At(k.mut, m, FREE).owner, k.c.Prio(k.c.run);
    ReprioFields(k.c, owner, p);
    BlockWaiters(k.(c := Reprio(k.c, owner, p)), m, n);
  }

  lemma OwnerNotCovering(k: KState, m: Ptr, n: nat)
    requires AtRest(k.c) && IsObject(k, m, MUCB) && n > 0 && k.List(m) == [THREE]
    requires At(k.mut, m, FREE) == Mutex(1, 1, TWO) && k.c.run == ONE
    requires k.c.Prio(ONE) == 3 && k.c.Prio(TWO) == 5 && k.c.Prio(THREE) == 5
    ensures Covers(k, m) && !Covers(MutWait(k, m, n), m) && MutWait(k, m, n).c.Prio(TWO) == 3
  {
    hide AtRest, MutWait;
    assert THREE in k.List(m);
    InheritsExactly(k, m, n);
    OwnerPrio(k, m, n);
  }

  lemma OwnerFits()
    ensures Fitting(RaisedOwner())
  {
  }

  lemma LockLegal(k: KState, m: Ptr)
    requires IsObject(k, m, MUCB) && k.c.run != k.c.idle && At(k.mut, m, FREE).owner != k.c.run
    ensures Legal(k, WaitMut(m, NO_TIMEOUT))
  {
  }

  /** A third task of middle priority lowers the owner of a mutex below the waiter that had raised it. */
  lemma OwnerLowered()
    ensures var k := Scene(RaisedOwner()); var k' := MutWait(k, OBJ, NO_TIMEOUT);
            && KInv(k) && Legal(k, WaitMut(OBJ, NO_TIMEOUT)) && Covers(k, OBJ) && !Covers(k', OBJ)
            && k.c.Prio(TWO) == 5 && k'.c.Prio(TWO) == 3
  {
    hide KInv, Scene, MutWait, Covers, Legal, MutOk, Fitting;
    var s := RaisedOwner();
    SceneHas(s);
    OwnerFits();
    SceneMutex(s);
    InvRests(Scene(s));
    LockLegal(Scene(s), OBJ);
    OwnerNotCovering(Scene(s), OBJ, NO_TIMEOUT);
  }

  lemma PlainScene(s: Cast)
    requires Fitting(s) && s.queue == [] && s.active == {ONE} && (s.ty == TCB || (s.ty == MUCB && s.mutex == FREE))
    ensures KInv(Scene(s)) && AtRest(Scene(s).c) && RtxDrain.Known(Scene(s), [SemReq(OBJ)])
  {
    hide KInv, Scene, Fitting, AtRest;
    SceneHas(s);
    SceneInv(s);
    InvRests(Scene(s));
  }

  /** A queued release of a semaphore that was deleted is ignored, as the call is. */
  lemma DeletedAgrees()
    ensures var k, qs := Scene(Deleted()), [SemReq(OBJ)];
            KInv(k) && RtxDrain.Known(k, qs) && DrainAny(k, qs) == Drained(k) && CallAll(k, qs) == k
  {
    hide KInv, Scene, AtRest, DrainAny, CallAll;
    var s := Deleted();
    PlainScene(s);
    SceneHas(s);
    DeletedIgnored(Scene(s), OBJ);
  }

  /** If its block is a new mutex by then, the mutex is taken by nobody, and nobody can release it. */
  lemma MutexLost()
    ensures var k, qs := Scene(NewMutex()), [SemReq(OBJ)]; var d := DrainAny(k, qs);
            && KInv(k) && RtxDrain.Known(k, qs) && CallAll(k, qs) == k
            && d.Drained? && At(k.mut, OBJ, FREE).level == 0 && At(d.k.mut, OBJ, FREE) == Mutex(0, 1, NULL)
  {
    hide KInv, Scene, AtRest, DrainAny;
    var s := NewMutex();
    PlainScene(s);
    SceneHas(s);
    MutexRaised(Scene(s), OBJ);
    RefusedCall(Scene(s), OBJ);
  }

  lemma RefusedCall(k: KState, h: Ptr)
    requires Stale(k, SemReq(h))
    ensures CallAll(k, [SemReq(h)]) == k
  {
    assert [SemReq(h)][1..] == [];
    assert CallAll(k, [SemReq(h)]) == CallAll(k, []);
  }

  lemma FormerLooks()
    ensures LooksWaiting(Scene(FormerMutex()), OBJ)
  {
    var e: bv16 := 0;
    assert HasAll(0, e);
  }

  /** If its block was a mutex before, with that priority in its second byte, it is made ready as if it were a task. */
  lemma FormerMutexHarms()
    ensures var k, qs := Scene(FormerMutex()), [SemReq(OBJ)];
            KInv(k) && RtxDrain.Known(k, qs) && DrainAny(k, qs) != Drained(CallAll(k, qs))
  {
    hide KInv, Scene, AtRest, DrainAny, CallAll, LooksWaiting;
    var s, q := FormerMutex(), SemReq(OBJ);
    PlainScene(s);
    SceneHas(s);
    FormerLooks();
    assert !Harmless(Scene(s), [q], [q][0]);
    DrainExactly(Scene(s), [q]);
  }
}
