/** The kernel calls as functions on the abstract kernel state. */
module RtxSpec {
  import opened Links
  import opened TaskLists
  import opened RtxOrder
  import opened Delays
  import opened RtxList
  import opened RtxSched
  import opened RtxRest

  const OS_R_OK := 0x00
  const OS_R_TMO := 0x01
  const OS_R_EVT := 0x02
  const OS_R_NOK := 0xff

  /** What a call returns: its own code, or what rt_ret_val or rt_ret_val2 stored for a waiting task. */
  datatype Ret = Code(code: int) | Val(value: int) | Message(msg: int) | Signals(flags: bv16)

  /** Mutex control block: saved owner priority, nesting level, owner. */
  datatype Mutex = Mutex(prio: nat, level: nat, owner: Ptr)

  /** Mailbox control block: who waits (1 receivers, 2 senders) and the message ring. */
  datatype Mailbox = Mailbox(state: nat, first: nat, last: nat, count: nat, size: nat, msg: seq<int>)

  /** Round-robin control block (os_robin). */
  datatype Robin = Robin(task: Ptr, time: nat, tout: nat)

  datatype KState = KState(
    c: Core,
    events: map<Ptr, bv16>,
    waits: map<Ptr, bv16>,
    msg: map<Ptr, int>,
    ret: map<Ptr, Ret>,
    tokens: map<Ptr, nat>,
    mut: map<Ptr, Mutex>,
    mbx: map<Ptr, Mailbox>,
    robin: Robin,
    time: nat)                    // os_time
  {
    ghost function List(h: Ptr): (s: seq<Ptr>) {
      c.List(h)
    }

    function Run(): (t: Ptr) {
      c.run
    }
  }

  ghost function Return(k: KState, code: int): (r: KState) {
    k.(ret := k.ret[k.c.run := Code(code)])
  }

  /** The first waiter of h, with r as the result of its call, competes for the processor. */
  ghost function Wake(k: KState, h: Ptr, r: Ret): (r': KState)
    requires k.List(h) != []
  {
    var t := k.List(h)[0];
    k.(c := Dispatch(WakeFirst(k.c, h), t), ret := k.ret[t := r])
  }

  /** The same as Wake from rt_pop_req: the task becomes ready. */
  ghost function WakeReady(k: KState, h: Ptr, r: Ret): (r': KState)
    requires k.List(h) != []
  {
    var t := k.List(h)[0];
    k.(c := ToReady(WakeFirst(k.c, h), t), ret := k.ret[t := r])
  }

  /** The result r stored for every task of s. */
  ghost function RetAll(ret: map<Ptr, Ret>, s: seq<Ptr>, r: Ret): (r': map<Ptr, Ret>)
    decreases |s|
  {
    if s == [] then ret else RetAll(ret[s[0] := r], s[1..], r)
  }

  /** The running task waits for object h. */
  ghost function BlockOn(k: KState, h: Ptr, n: nat, st: TaskState): (r: KState) {
    Return(k, OS_R_TMO).(c := Block(QueueRun(k.c, h), n, st))
  }

  // ----- rt_Semaphore.c

  ghost function StoreToken(k: KState, h: Ptr): (r: KState) {
    k.(tokens := k.tokens[h := U16(At(k.tokens, h, 0) + 1)])
  }

  /** rt_sem_send */
  ghost function SemSend(k: KState, h: Ptr): (r: KState) {
    if k.List(h) != [] then Wake(k, h, Val(1)) else StoreToken(k, h)
  }

  /** rt_sem_psh */
  ghost function SemPsh(k: KState, h: Ptr): (r: KState) {
    if k.List(h) != [] then WakeReady(k, h, Val(1)) else StoreToken(k, h)
  }

  /** rt_sem_wait */
  ghost function SemWait(k: KState, h: Ptr, n: nat): (r: KState) {
    if At(k.tokens, h, 0) != 0 then Return(k.(tokens := k.tokens[h := At(k.tokens, h, 0) - 1]), OS_R_OK)
    else if n == 0 then Return(k, OS_R_TMO)
    else BlockOn(k, h, n, WAIT_SEM)
  }

  /** The waiters of h become ready, the most urgent task runs and h loses its type. */
  ghost function Discard(k: KState, h: Ptr): (r: KState) {
    var c := PreemptCheck(WakeAll(k.c, h));
    Return(k.(ret := RetAll(k.ret, k.List(h), Val(0))), OS_R_OK).(c := c.(kind := c.kind[h := TCB]))
  }

  // ----- rt_Event.c

  predicate HasAll(e: bv16, w: bv16) {
    e & w == w
  }

  predicate HasAny(e: bv16, w: bv16) {
    e & w != 0
  }

  function Merge(e: bv16, w: bv16): (r: bv16) {
    e | w
  }

  function Common(e: bv16, w: bv16): (r: bv16) {
    e & w
  }

  function Without(e: bv16, w: bv16): (r: bv16) {
    e & !w
  }

  /** rt_evt_wait */
  ghost function EvtWait(k: KState, flags: bv16, n: nat, and: bool): (r: KState) {
    var run, e := k.c.run, At(k.events, k.c.run, 0);
    if and && HasAll(e, flags) then Return(k.(events := k.events[run := Without(e, flags)]), OS_R_EVT)
    else if !and && HasAny(e, flags)
    then Return(k.(waits := k.waits[run := Common(e, flags)], events := k.events[run := Without(e, flags)]), OS_R_EVT)
    else Return(k, OS_R_TMO).(waits := k.waits[run := flags], c := Block(k.c, n, if and then WAIT_AND else WAIT_OR))
  }

  /** The event flags e satisfy a wait for w in state st. */
  predicate Satisfies(st: TaskState, e: bv16, w: bv16) {
    (st == WAIT_AND && HasAll(e, w)) || (st == WAIT_OR && HasAny(e, w))
  }

  /** Whether setting flags completes the wait of t. */
  ghost predicate Completes(k: KState, t: Ptr, flags: bv16) {
    Satisfies(k.c.State(t), Merge(At(k.events, t, 0), flags), At(k.waits, t, 0))
  }

  /** The updates shared by rt_evt_set and rt_evt_psh. */
  ghost function Signal(k: KState, t: Ptr, flags: bv16): (r: KState) {
    var e, w := Merge(At(k.events, t, 0), flags), At(k.waits, t, 0);
    if Completes(k, t, flags) then
      var w' := if k.c.State(t) == WAIT_OR then Common(w, e) else w;
      k.(events := k.events[t := Without(e, w)], waits := k.waits[t := w'], ret := k.ret[t := Signals(w')],
         c := k.c.(d := DelayDrop(k.c.d, t)))
    else k.(events := k.events[t := e])
  }

  /** rt_evt_set */
  ghost function EvtSet(k: KState, t: Ptr, flags: bv16): (r: KState) {
    if t !in k.c.active then k
    else
      var k1 := Signal(k, t, flags);
      if Completes(k, t, flags) then k1.(c := Dispatch(k1.c, t)) else k1
  }

  /** rt_evt_psh */
  ghost function EvtPsh(k: KState, t: Ptr, flags: bv16): (r: KState) {
    var k1 := Signal(k, t, flags);
    if Completes(k, t, flags) then k1.(c := ToReady(k1.c, t)) else k1
  }

  /** rt_evt_clr */
  ghost function EvtClr(k: KState, t: Ptr, flags: bv16): (r: KState) {
    if t !in k.c.active then k else k.(events := k.events[t := Without(At(k.events, t, 0), flags)])
  }

  // ----- rt_Mutex.c

  const FREE := Mutex(0, 0, NULL)

  /** rt_mut_wait */
  ghost function MutWait(k: KState, m: Ptr, n: nat): (r: KState) {
    var run, mu := k.c.run, At(k.mut, m, FREE);
    if mu.level == 0 then Return(k.(mut := k.mut[m := Mutex(k.c.Prio(run), 1, run)]), OS_R_OK)
    else if mu.owner == run then Return(k.(mut := k.mut[m := mu.(level := U16(mu.level + 1))]), OS_R_OK)
    else if n == 0 then Return(k, OS_R_TMO)
    else BlockOn(k.(c := if mu.prio < k.c.Prio(run) then Reprio(k.c, mu.owner, k.c.Prio(run)) else k.c), m, n, WAIT_MUT)
  }

  /** The released mutex goes to its first waiter. */
  ghost function HandOver(k: KState, m: Ptr): (r: KState)
    requires k.List(m) != []
  {
    var t := k.List(m)[0];
    var c := WakeFirst(k.c, m);
    k.(ret := k.ret[t := Val(0)], mut := k.mut[m := Mutex(k.c.Prio(t), 1, t)],
       c := HandTo(c, t))
  }

  /** rt_mut_release */
  ghost function MutRelease(k: KState, m: Ptr): (r: KState) {
    var run, mu := k.c.run, At(k.mut, m, FREE);
    if mu.level == 0 || mu.owner != run then Return(k, OS_R_NOK)
    else
      var k1 := Return(k.(mut := k.mut[m := mu.(level := mu.level - 1)]), OS_R_OK);
      if mu.level - 1 != 0 then k1
      else
        var k2 := k1.(c := k1.c.(prio := k1.c.prio[run := mu.prio]));
        if k2.List(m) == [] then k2.(c := PreemptCheck(k2.c)) else HandOver(k2, m)
  }

  /** rt_mut_delete */
  ghost function MutDelete(k: KState, m: Ptr): (r: KState) {
    var mu := At(k.mut, m, FREE);
    Discard(k.(c := if mu.level != 0 then Reprio(k.c, mu.owner, mu.prio) else k.c), m)
  }

  // ----- rt_Mailbox.c

  const NO_MAILBOX := Mailbox(0, 0, 0, 0, 0, [])

  /** The ring index after i. */
  function Step(i: nat, size: nat): (r: nat) {
    if i + 1 == size then 0 else i + 1
  }

  /** x stored at the write index of the ring. */
  function Store(b: Mailbox, x: int): (r: Mailbox) {
    b.(msg := if b.first < |b.msg| then b.msg[b.first := x] else b.msg, first := Step(b.first, b.size))
  }

  /** The message at the read index of the ring. */
  function Oldest(b: Mailbox): (x: int) {
    if b.last < |b.msg| then b.msg[b.last] else 0
  }

  /** rt_mbx_send */
  ghost function MbxSend(k: KState, m: Ptr, x: int, n: nat): (r: KState) {
    var run, b := k.c.run, At(k.mbx, m, NO_MAILBOX);
    if k.List(m) != [] && b.state == 1 then Wake(Return(k, OS_R_OK), m, Message(x))
    else if b.count == b.size then
      if n == 0 then Return(k, OS_R_TMO)
      else BlockOn(k.(mbx := k.mbx[m := if k.List(m) == [] then b.(state := 2) else b], msg := k.msg[run := x]),
                   m, n, WAIT_MBX)
    else Return(k.(mbx := k.mbx[m := Store(b, x).(count := b.count + 1)]), OS_R_OK)
  }

  /** rt_mbx_wait */
  ghost function MbxWait(k: KState, m: Ptr, n: nat): (r: KState) {
    var run, b := k.c.run, At(k.mbx, m, NO_MAILBOX);
    if b.count > 0 then
      var b1 := b.(last := Step(b.last, b.size));
      var k1 := k.(ret := k.ret[run := Message(Oldest(b))]);
      if k.List(m) != [] && b.state == 2
      then Wake(k1.(mbx := k.mbx[m := Store(b1, At(k.msg, k.List(m)[0], 0))]), m, Val(0))
      else k1.(mbx := k.mbx[m := b1.(count := b.count - 1)])
    else if n == 0 then Return(k, OS_R_TMO)
    else BlockOn(k.(mbx := k.mbx[m := if k.List(m) == [] then b.(state := 1) else b]), m, n, WAIT_MBX)
  }

  // ----- rt_Robin.c and rt_System.c

  /** The first ready task goes behind the others of its priority. */
  ghost function Rotate(c: Core): (r: Core)
    requires c.Ready() != []
  {
    c.(g := Queue(Pop(c.g, RDY), c.prio, RDY, c.Ready()[0]))
  }

  /** The round-robin control block after its check, with head at the front of the ready list. */
  function NextRobin(r: Robin, head: Ptr, time: nat): (r': Robin) {
    var r1 := if r.task != head then Robin(head, U16(time + r.tout - 1), r.tout) else r;
    if r1.time == U16(time) then r1.(task := NULL) else r1
  }

  /** rt_chk_robin: rotate when the slice of the task at the front is over. */
  ghost function ChkRobin(k: KState): (r: KState) {
    if k.c.Ready() == [] then k
    else
      var r := NextRobin(k.robin, k.c.Ready()[0], k.time);
      k.(robin := r, c := if r.task == NULL then Rotate(k.c) else k.c)
  }

  /** rt_systick, without the user timers. */
  ghost function Tick(k: KState): (r: KState) {
    var k1 := ChkRobin(k.(c := ReadyAt(k.c, 0, k.c.run)));
    k1.(time := (k1.time + 1) % 0x1_0000_0000, c := DispatchNext(DecDly(k1.c)))
  }

  /** A request that an interrupt handler left for rt_pop_req. */
  datatype Request = SemReq(sem: Ptr) | EvtReq(task: Ptr, flags: bv16)

  ghost function Push(k: KState, q: Request): (r: KState) {
    match q
    case SemReq(h) => SemPsh(k, h)
    case EvtReq(t, flags) => EvtPsh(k, t, flags)
  }

  ghost function PushAll(k: KState, qs: seq<Request>): (r: KState)
    decreases |qs|
  {
    if qs == [] then k else PushAll(Push(k, qs[0]), qs[1..])
  }

  /** rt_pop_req with the queued requests qs. */
  ghost function PopReq(k: KState, qs: seq<Request>): (r: KState) {
    var k1 := PushAll(k.(c := ReadyAt(k.c, 0, k.c.run)), qs);
    k1.(c := DispatchNext(k1.c))
  }

  // ----- one call after another

  /** A kernel call, a tick, or a pass of rt_pop_req. */
  datatype Call =
    | Pass
    | SetPrio(task: Ptr, prio: nat)
    | Delete(task: Ptr)
    | Create(task: Ptr, prio: nat)
    | Wait(ticks: nat)
    | InitSem(obj: Ptr, count: nat) | InitMut(obj: Ptr) | InitMbx(obj: Ptr, size: nat)
    | SendSem(obj: Ptr) | WaitSem(obj: Ptr, ticks: nat) | DeleteSem(obj: Ptr)
    | SetEvt(task: Ptr, flags: bv16) | WaitEvt(flags: bv16, ticks: nat, and: bool) | ClrEvt(task: Ptr, flags: bv16)
    | WaitMut(obj: Ptr, ticks: nat) | ReleaseMut(obj: Ptr) | DeleteMut(obj: Ptr)
    | SendMbx(obj: Ptr, msg: int, ticks: nat) | WaitMbx(obj: Ptr, ticks: nat)
    | SysTick
    | PendSV(requests: seq<Request>)

  /** rt_sem_init, rt_mut_init and rt_mbx_init give a control block its type. */
  ghost function NewObject(k: KState, h: Ptr, ty: Kind): (r: KState) {
    k.(c := k.c.(kind := k.c.kind[h := ty]))
  }

  function EmptyMailbox(size: nat): (b: Mailbox) {
    Mailbox(0, 0, 0, 0, size, seq(size, _ => 0))
  }

  ghost function Apply(k: KState, a: Call): (r: KState) {
    match a
    case Pass => k.(c := TskPass(k.c))
    case SetPrio(t, p) =>
      Return(k, if t != NULL && t !in k.c.active then OS_R_NOK else OS_R_OK).(c := TskPrio(k.c, t, p))
    case Delete(t) =>
      Return(k, if t != NULL && t != k.c.run && t !in k.c.active then OS_R_NOK else OS_R_OK).(c := TskDelete(k.c, t))
    case Create(t, p) => k.(c := TskCreate(k.c, t, p), events := k.events[t := 0], waits := k.waits[t := 0])
    case Wait(n) => k.(c := Block(k.c, n, WAIT_DLY))
    case InitSem(h, count) => NewObject(k, h, SCB).(tokens := k.tokens[h := count])
    case InitMut(m) => NewObject(k, m, MUCB).(mut := k.mut[m := FREE])
    case InitMbx(m, size) => NewObject(k, m, MCB).(mbx := k.mbx[m := EmptyMailbox(size)])
    case SendSem(h) => SemSend(Return(k, OS_R_OK), h)
    case WaitSem(h, n) => SemWait(k, h, n)
    case DeleteSem(h) => Discard(k, h)
    case SetEvt(t, flags) => EvtSet(k, t, flags)
    case WaitEvt(flags, n, and) => EvtWait(k, flags, n, and)
    case ClrEvt(t, flags) => EvtClr(k, t, flags)
    case WaitMut(m, n) => MutWait(k, m, n)
    case ReleaseMut(m) => MutRelease(k, m)
    case DeleteMut(m) => MutDelete(k, m)
    case SendMbx(m, x, n) => MbxSend(k, m, x, n)
    case WaitMbx(m, n) => MbxWait(k, m, n)
    case SysTick => Tick(k)
    case PendSV(qs) => PopReq(k, qs)
  }

  /** One call and the context switch that ends it. */
  ghost function Do(k: KState, a: Call): (r: KState) {
    var k1 := Apply(k, a);
    k1.(c := Commit(k1.c))
  }
}
