/**
 * lwip_select and event_callback as interleaved steps: every step is what happens between
 * SYS_ARCH_PROTECT and SYS_ARCH_UNPROTECT, and any thread or callback may run next.
 */
module SelectProtocol {

  /** The part of struct lwip_sock that select looks at. */
  datatype Sock = Sock(lastdata: bool, rcvevent: int, sendevent: bool, errevent: bool)

  datatype Event = RcvPlus | RcvMinus | SendPlus | SendMinus | Error

  /**
   * Where a thread is inside lwip_select; i is the next socket of the current loop. Nothing was ready
   * so far in Scan1 and Scan2 unless ready is set.
   */
  datatype Pc =
    | Outside
    | Scan1(i: nat, ready: bool)
    | Link
    | Raise(i: nat)
    | Scan2(i: nat, ready: bool)
    | Blocked
    | Lower(i: nat)
    | Unlink

  /** A thread with the sets it passed to lwip_select, maxfdp1, a zero timeout or not, and sem_signalled. */
  datatype Thread = Thread(pc: Pc, rd: set<nat>, wr: set<nat>, ex: set<nat>, max: nat, poll: bool, signalled: bool)

  /** An event_callback between two steps of its list walk: its socket, scb, and last_select_cb_ctr. */
  datatype Walk = Walk(socket: nat, scb: nat, ctr: nat)

  /** list is select_cb_list from its head, by thread; waiting holds the select_waiting counters. */
  datatype State = State(
    socks: seq<Sock>, waiting: seq<int>, threads: seq<Thread>, list: seq<nat>, ctr: nat, walks: map<nat, Walk>)

  datatype Action =
    | Enter(t: nat, rd: set<nat>, wr: set<nat>, ex: set<nat>, max: nat, poll: bool)
    | Go(t: nat)
    | TimeOut(t: nat)
    | Callback(c: nat, socket: nat, event: Event)
    | WalkOn(c: nat)
    | Receive(socket: nat, left: bool)

  predicate Watches(th: Thread, k: nat) {
    k < th.max && (k in th.rd || k in th.wr || k in th.ex)
  }

  /** An event is pending on socket k whose bit th has set: what event_callback tests, without a look at maxfdp1. */
  predicate Pends(th: Thread, k: nat, so: Sock) {
    (k in th.rd && so.rcvevent > 0) || (k in th.wr && so.sendevent) || (k in th.ex && so.errevent)
  }

  /** The same for the sockets that lwip_selscan looks at: an event that th asked for. */
  predicate Wanted(th: Thread, k: nat, so: Sock) {
    k < th.max && Pends(th, k, so)
  }

  /** lwip_selscan on one socket, which also counts data left from an earlier read. */
  predicate ReadyNow(th: Thread, k: nat, so: Sock) {
    Wanted(th, k, so) || (k < th.max && k in th.rd && so.lastdata)
  }

  function Apply(so: Sock, e: Event): (r: Sock) {
    match e
    case RcvPlus => so.(rcvevent := so.rcvevent + 1)
    case RcvMinus => so.(rcvevent := so.rcvevent - 1)
    case SendPlus => so.(sendevent := true)
    case SendMinus => so.(sendevent := false)
    case Error => so.(errevent := true)
  }

  function WithThread(s: State, t: nat, th: Thread): (r: State)
    requires t < |s.threads|
  {
    s.(threads := s.threads[t := th])
  }

  function WithPc(s: State, t: nat, pc: Pc): (r: State)
    requires t < |s.threads|
  {
    WithThread(s, t, s.threads[t].(pc := pc))
  }

  /** The entry of thread t is tested for socket k, and its semaphore signalled if an event is pending. */
  function Test(s: State, k: nat, t: nat): (r: State) {
    if t < |s.threads| && k < |s.socks| && !s.threads[t].signalled && Pends(s.threads[t], k, s.socks[k])
    then WithThread(s, t, s.threads[t].(signalled := true))
    else s
  }

  /** The walk c for socket k tests the entry at position i of the list, or ends behind the last one. */
  function VisitAt(s: State, c: nat, k: nat, i: nat): (r: State) {
    if i < |s.list| then
      var s1 := Test(s, k, s.list[i]);
      s1.(walks := s1.walks[c := Walk(k, s.list[i], s.ctr)])
    else s.(walks := s.walks - {c})
  }

  function Position(list: seq<nat>, t: nat): (i: nat)
    ensures i <= |list| && (i < |list| ==> list[i] == t) && (t in list <==> i < |list|)
  {
    if list == [] || list[0] == t then 0 else 1 + Position(list[1..], t)
  }

  /** The next step of thread t inside lwip_select. */
  function Advance(s: State, t: nat): (r: State)
    requires t < |s.threads|
  {
    var th := s.threads[t];
    match th.pc
    case Outside => s
    case Scan1(i, ready) =>
      if i < th.max then WithPc(s, t, Scan1(i + 1, ready || (i < |s.socks| && ReadyNow(th, i, s.socks[i]))))
      else WithPc(s, t, if ready || th.poll then Outside else Link)
    case Link =>
      WithThread(s, t, th.(pc := Raise(0), signalled := false)).(list := [t] + s.list, ctr := s.ctr + 1)
    case Raise(i) =>
      if i < th.max then WithPc(Adjust(s, th, i, 1), t, Raise(i + 1)) else WithPc(s, t, Scan2(0, false))
    case Scan2(i, ready) =>
      if i < th.max then WithPc(s, t, Scan2(i + 1, ready || (i < |s.socks| && ReadyNow(th, i, s.socks[i]))))
      else WithPc(s, t, if ready then Lower(0) else Blocked)
    case Blocked => if th.signalled then WithPc(s, t, Lower(0)) else s
    case Lower(i) =>
      if i < th.max then WithPc(Adjust(s, th, i, -1), t, Lower(i + 1)) else WithPc(s, t, Unlink)
    case Unlink => WithPc(s, t, Outside).(list := Without(s.list, t), ctr := s.ctr + 1)
  }

  /** select_waiting of socket i changed by d if th watches it. */
  function Adjust(s: State, th: Thread, i: nat, d: int): (r: State) {
    if Watches(th, i) && i < |s.waiting| then s.(waiting := s.waiting[i := s.waiting[i] + d]) else s
  }

  function Without(list: seq<nat>, t: nat): (r: seq<nat>) {
    var i := Position(list, t);
    if i < |list| then list[..i] + list[i + 1..] else list
  }

  /** event_callback: the event is recorded, and the walk starts with the first entry if anyone waits. */
  function Begin(s: State, c: nat, k: nat, e: Event): (r: State)
    requires k < |s.socks| && k < |s.waiting|
  {
    var s1 := s.(socks := s.socks[k := Apply(s.socks[k], e)]);
    if s.waiting[k] == 0 then s1 else VisitAt(s1, c, k, 0)
  }

  /** A walk goes on: from the start if the list has changed, else with the next entry. */
  function Resume(s: State, c: nat): (r: State)
    requires c in s.walks
  {
    var w := s.walks[c];
    if w.ctr != s.ctr then VisitAt(s, c, w.socket, 0) else VisitAt(s, c, w.socket, Position(s.list, w.scb) + 1)
  }

  /** What can happen: watched sockets are open, and a callback context runs one callback at a time. */
  predicate Enabled(s: State, a: Action) {
    match a
    case Enter(t, rd, wr, ex, max, _) => t < |s.threads| && s.threads[t].pc == Outside && max <= |s.socks|
    case Go(t) => t < |s.threads|
    case TimeOut(t) => t < |s.threads| && s.threads[t].pc == Blocked
    case Callback(c, k, _) => c !in s.walks && k < |s.socks| && k < |s.waiting|
    case WalkOn(c) => c in s.walks
    case Receive(k, _) => k < |s.socks|
  }

  function Step(s: State, a: Action): (r: State)
    requires Enabled(s, a)
  {
    match a
    case Enter(t, rd, wr, ex, max, poll) => WithThread(s, t, Thread(Scan1(0, false), rd, wr, ex, max, poll, false))
    case Go(t) => Advance(s, t)
    case TimeOut(t) => WithPc(s, t, Lower(0))
    case Callback(c, k, e) => Begin(s, c, k, e)
    case WalkOn(c) => Resume(s, c)
    case Receive(k, left) => s.(socks := s.socks[k := s.socks[k].(lastdata := left)])
  }

  // ----- the invariant

  predicate Linked(pc: Pc) {
    pc.Raise? || pc.Scan2? || pc.Blocked? || pc.Lower? || pc.Unlink?
  }

  /** th has raised select_waiting of socket k and not lowered it again. */
  predicate Raised(th: Thread, k: nat) {
    Watches(th, k) &&
    match th.pc
    case Raise(i) => k < i
    case Scan2(_, _) => true
    case Blocked => true
    case Lower(i) => k >= i
    case _ => false
  }

  function Waiters(threads: seq<Thread>, k: nat): (n: nat) {
    if threads == [] then 0 else Waiters(threads[1..], k) + if Raised(threads[0], k) then 1 else 0
  }

  /** th has seen nothing ready on socket k in its second scan, and nobody has signalled it. */
  predicate Waits(th: Thread, k: nat) {
    !th.signalled && k < th.max && (th.pc.Blocked? || (th.pc.Scan2? && !th.pc.ready && k < th.pc.i))
  }

  /** Walk w still gets to the entry of thread t: the entry is ahead of it, or it must start over. */
  predicate Reaches(s: State, w: Walk, t: nat) {
    w.ctr != s.ctr || Position(s.list, w.scb) < Position(s.list, t)
  }

  ghost predicate Covered(s: State, t: nat, k: nat) {
    exists c {:trigger s.walks[c]} :: c in s.walks && s.walks[c].socket == k && Reaches(s, s.walks[c], t)
  }

  /** A thread that waits while an event it wants is pending will be found by a walk for that socket. */
  ghost predicate NoLostWakeUp(s: State) {
    forall t, k {:trigger Waits(s.threads[t], k)} ::
      0 <= t < |s.threads| && 0 <= k < |s.socks| && Waits(s.threads[t], k) && Wanted(s.threads[t], k, s.socks[k]) ==> Covered(s, t, k)
  }

  ghost predicate ListOk(s: State) {
    && (forall i, j :: 0 <= i < j < |s.list| ==> s.list[i] != s.list[j])
    && (forall t :: t in s.list <==> 0 <= t < |s.threads| && Linked(s.threads[t].pc))
  }

  ghost predicate CountsOk(s: State) {
    && |s.waiting| == |s.socks|
    && (forall k :: 0 <= k < |s.waiting| ==> s.waiting[k] == Waiters(s.threads, k))
    && (forall t :: 0 <= t < |s.threads| && s.threads[t].pc != Outside ==> s.threads[t].max <= |s.socks|)
  }

  ghost predicate WalksOk(s: State) {
    forall c {:trigger s.walks[c]} :: c in s.walks ==>
      s.walks[c].ctr <= s.ctr && (s.walks[c].ctr == s.ctr ==> s.walks[c].scb in s.list)
  }

  ghost predicate Inv(s: State) {
    ListOk(s) && CountsOk(s) && WalksOk(s) && NoLostWakeUp(s)
  }

  // ----- every step keeps the invariant

  lemma {:induction false} WaitersUpdate(threads: seq<Thread>, t: nat, th: Thread, k: nat)
    requires t < |threads|
    ensures Waiters(threads[t := th], k) ==
            Waiters(threads, k) - (if Raised(threads[t], k) then 1 else 0) + if Raised(th, k) then 1 else 0
  {
    var r := threads[t := th];
    if t == 0 {
      assert r[1..] == threads[1..];
    } else {
      assert r[1..] == threads[1..][t - 1 := th];
      WaitersUpdate(threads[1..], t - 1, th, k);
    }
  }

  lemma {:induction false} WaiterCounts(threads: seq<Thread>, t: nat, k: nat)
    requires t < |threads| && Raised(threads[t], k)
    ensures Waiters(threads, k) >= 1
  {
    if t > 0 {
      WaiterCounts(threads[1..], t - 1, k);
    }
  }

  lemma {:induction false} PositionOf(list: seq<nat>, i: nat)
    requires i < |list| && forall a, b :: 0 <= a < b < |list| ==> list[a] != list[b]
    ensures Position(list, list[i]) == i
  {
    if i > 0 {
      assert list[0] != list[i];
      PositionOf(list[1..], i - 1);
    }
  }

  /** Who waits for an event that is pending in s' did so in s already, and is still covered. */
  ghost predicate Kept(s: State, s': State, t: nat, k: nat)
    requires t < |s.threads| && t < |s'.threads| && k < |s.socks| && k < |s'.socks|
  {
    Waits(s'.threads[t], k) && Wanted(s'.threads[t], k, s'.socks[k]) ==>
      Waits(s.threads[t], k) && Wanted(s.threads[t], k, s.socks[k])
  }

  lemma SameCover(s: State, s': State, t: nat, k: nat)
    requires Covered(s, t, k) && s'.list == s.list && s'.ctr == s.ctr && s'.walks == s.walks
    ensures Covered(s', t, k)
  {
    var c :| c in s.walks && s.walks[c].socket == k && Reaches(s, s.walks[c], t);
    assert Reaches(s', s'.walks[c], t);
  }

  /** After a change of the list every walk starts over. */
  lemma CoverAgain(s: State, s': State, t: nat, k: nat)
    requires Covered(s, t, k) && WalksOk(s) && s'.ctr == s.ctr + 1 && s'.walks == s.walks
    ensures Covered(s', t, k)
  {
    var c :| c in s.walks && s.walks[c].socket == k && Reaches(s, s.walks[c], t);
    assert Reaches(s', s'.walks[c], t);
  }

  /** A step of thread t that leaves sockets, list and walks alone keeps everybody covered. */
  lemma NoLostLocal(s: State, s': State, t: nat)
    requires NoLostWakeUp(s) && t < |s.threads| == |s'.threads| && s'.threads == s.threads[t := s'.threads[t]] && s'.socks == s.socks
    requires s'.list == s.list && s'.ctr == s.ctr && s'.walks == s.walks
    requires forall k :: 0 <= k < |s.socks| ==> Kept(s, s', t, k)
    ensures NoLostWakeUp(s')
  {
    forall u, k | 0 <= u < |s'.threads| && 0 <= k < |s'.socks| && Waits(s'.threads[u], k) && Wanted(s'.threads[u], k, s'.socks[k])
      ensures Covered(s', u, k)
    {
      assert u == t ==> Kept(s, s', t, k);
      assert Waits(s.threads[u], k);
      SameCover(s, s', u, k);
    }
  }

  lemma NoLostRelinked(s: State, s': State, t: nat)
    requires NoLostWakeUp(s) && WalksOk(s) && t < |s.threads| == |s'.threads| && s'.threads == s.threads[t := s'.threads[t]]
    requires s'.socks == s.socks && s'.ctr == s.ctr + 1 && s'.walks == s.walks
    requires forall k :: 0 <= k < |s.socks| ==> !Waits(s'.threads[t], k)
    ensures NoLostWakeUp(s')
  {
    forall u, k | 0 <= u < |s'.threads| && 0 <= k < |s'.socks| && Waits(s'.threads[u], k) && Wanted(s'.threads[u], k, s'.socks[k])
      ensures Covered(s', u, k)
    {
      assert Waits(s.threads[u], k);
      CoverAgain(s, s', u, k);
    }
  }

  /** Counters after a step of thread t that adjusts none of them. */
  lemma CountsLocal(s: State, s': State, t: nat)
    requires CountsOk(s) && t < |s.threads| == |s'.threads| && s'.threads == s.threads[t := s'.threads[t]]
    requires s'.waiting == s.waiting && |s'.socks| == |s.socks|
    requires forall k :: 0 <= k < |s.waiting| ==> Raised(s'.threads[t], k) == Raised(s.threads[t], k)
    requires s'.threads[t].pc != Outside ==> s'.threads[t].max <= |s.socks|
    ensures CountsOk(s')
  {
    forall k | 0 <= k < |s'.waiting|
      ensures s'.waiting[k] == Waiters(s'.threads, k)
    {
      WaitersUpdate(s.threads, t, s'.threads[t], k);
    }
  }

  lemma CountsAdjusted(s: State, s': State, t: nat, i: nat, d: int)
    requires CountsOk(s) && t < |s.threads| == |s'.threads| && s'.threads == s.threads[t := s'.threads[t]] && |s'.socks| == |s.socks|
    requires s'.waiting == Adjust(s, s.threads[t], i, d).waiting
    requires forall k :: 0 <= k < |s.waiting| && k != i ==> Raised(s'.threads[t], k) == Raised(s.threads[t], k)
    requires i < |s.waiting| ==>
               (if Raised(s'.threads[t], i) then 1 else 0) - (if Raised(s.threads[t], i) then 1 else 0)
               == if Watches(s.threads[t], i) then d else 0
    requires s'.threads[t].pc != Outside ==> s'.threads[t].max <= |s.socks|
    ensures CountsOk(s')
  {
    forall k | 0 <= k < |s'.waiting|
      ensures s'.waiting[k] == Waiters(s'.threads, k)
    {
      WaitersUpdate(s.threads, t, s'.threads[t], k);
    }
  }

  /** The list after a step of thread t that neither links nor unlinks it. */
  lemma ListLocal(s: State, s': State, t: nat)
    requires ListOk(s) && t < |s.threads| == |s'.threads| && s'.threads == s.threads[t := s'.threads[t]] && s'.list == s.list
    requires Linked(s'.threads[t].pc) == Linked(s.threads[t].pc)
    ensures ListOk(s')
  {
  }

  lemma EnterKeeps(s: State, a: Action)
    requires Inv(s) && Enabled(s, a) && a.Enter?
    ensures Inv(Step(s, a))
  {
    var s' := Step(s, a);
    ListLocal(s, s', a.t);
    CountsLocal(s, s', a.t);
    NoLostLocal(s, s', a.t);
  }

  /** Steps of a thread inside lwip_select but for linking and unlinking its entry. */
  lemma AdvanceKeeps(s: State, t: nat)
    requires Inv(s) && t < |s.threads| && !s.threads[t].pc.Link? && !s.threads[t].pc.Unlink?
    ensures Inv(Advance(s, t))
  {
    hide ListOk, CountsOk, NoLostWakeUp, Kept, Watches, Wanted, Waits;
    var s', th := Advance(s, t), s.threads[t];
    assert s.threads[t := th] == s.threads;
    ListLocal(s, s', t);
    AdvanceCounts(s, t);
    forall k | 0 <= k < |s.socks|
      ensures Kept(s, s', t, k)
    {
      AdvanceKept(s, t, k);
    }
    NoLostLocal(s, s', t);
  }

  lemma AdvanceCounts(s: State, t: nat)
    requires CountsOk(s) && t < |s.threads| && !s.threads[t].pc.Link? && !s.threads[t].pc.Unlink?
    ensures CountsOk(Advance(s, t))
  {
    hide CountsOk, ReadyNow;
    var s', th := Advance(s, t), s.threads[t];
    assert s.threads[t := th] == s.threads;
    if th.pc != Outside {
      MaxFits(s, t);
    }
    if th.pc.Raise? && th.pc.i < th.max {
      CountsAdjusted(s, s', t, th.pc.i, 1);
    } else if th.pc.Lower? && th.pc.i < th.max {
      CountsAdjusted(s, s', t, th.pc.i, -1);
    } else {
      CountsLocal(s, s', t);
    }
  }

  /** A thread starts to wait for a socket only when it has just seen no event there. */
  lemma AdvanceKept(s: State, t: nat, k: nat)
    requires t < |s.threads| && k < |s.socks| && !s.threads[t].pc.Link? && !s.threads[t].pc.Unlink?
    ensures |Advance(s, t).threads| == |s.threads| && Advance(s, t).socks == s.socks && Kept(s, Advance(s, t), t, k)
  {
  }

  lemma MaxFits(s: State, t: nat)
    requires CountsOk(s) && t < |s.threads| && s.threads[t].pc != Outside
    ensures s.threads[t].max <= |s.socks| && |s.waiting| == |s.socks|
  {
  }

  lemma LinkKeeps(s: State, t: nat)
    requires Inv(s) && t < |s.threads| && s.threads[t].pc.Link?
    ensures Inv(Advance(s, t))
  {
    hide NoLostWakeUp, CountsOk;
    var s' := Advance(s, t);
    MaxFits(s, t);
    CountsLocal(s, s', t);
    NoLostRelinked(s, s', t);
    assert t !in s.list;
  }

  lemma UnlinkKeeps(s: State, t: nat)
    requires Inv(s) && t < |s.threads| && s.threads[t].pc.Unlink?
    ensures Inv(Advance(s, t))
  {
    hide NoLostWakeUp, CountsOk;
    var s' := Advance(s, t);
    CountsLocal(s, s', t);
    NoLostRelinked(s, s', t);
    WithoutList(s.list, t);
  }

  lemma WithoutList(list: seq<nat>, t: nat)
    requires forall a, b :: 0 <= a < b < |list| ==> list[a] != list[b]
    ensures var r := Without(list, t);
            && (forall a, b :: 0 <= a < b < |r| ==> r[a] != r[b])
            && (forall x :: x in r <==> x in list && x != t)
  {
    var i, r := Position(list, t), Without(list, t);
    if i < |list| {
      assert list == list[..i] + [list[i]] + list[i + 1..];
      assert forall a :: 0 <= a < |r| ==> r[a] == list[if a < i then a else a + 1];
    }
  }

  lemma TimeOutKeeps(s: State, t: nat)
    requires Inv(s) && t < |s.threads| && s.threads[t].pc == Blocked
    ensures Inv(WithPc(s, t, Lower(0)))
  {
    var s' := WithPc(s, t, Lower(0));
    ListLocal(s, s', t);
    CountsLocal(s, s', t);
    NoLostLocal(s, s', t);
  }

  // ----- the list walk

  /** The walk c for socket k, at position i, finds every waiting thread from there on. */
  lemma VisitCovers(s: State, c: nat, k: nat, i: nat, t: nat)
    requires ListOk(s) && t in s.list && i <= Position(s.list, t) && k < |s.socks|
    ensures var s' := VisitAt(s, c, k, i);
            t < |s'.threads| && (Waits(s'.threads[t], k) && Wanted(s'.threads[t], k, s.socks[k]) ==> Covered(s', t, k))
  {
    var s', p := VisitAt(s, c, k, i), Position(s.list, t);
    PositionOf(s.list, i);
    if i < p {
      assert s'.walks[c].socket == k && Reaches(s', s'.walks[c], t);
    }
  }

  /**
   * A visited thread that was not signalled is signalled with nothing to return for exactly if an event is pending
   * for a bit at or above maxfdp1, which lwip_select does not look at.
   */
  lemma SignalledForNothing(s: State, k: nat, t: nat)
    requires t < |s.threads| && k < |s.socks| && !s.threads[t].signalled
    ensures Test(s, k, t).threads[t].signalled && !Wanted(s.threads[t], k, s.socks[k]) <==>
            k >= s.threads[t].max && Pends(s.threads[t], k, s.socks[k])
    ensures Wanted(s.threads[t], k, s.socks[k]) ==> Test(s, k, t).threads[t].signalled
  {
  }

  /** What a visit leaves alone. */
  lemma VisitFrame(s: State, c: nat, k: nat, i: nat)
    ensures var s' := VisitAt(s, c, k, i);
            && s'.socks == s.socks && s'.waiting == s.waiting && s'.list == s.list && s'.ctr == s.ctr
            && |s'.threads| == |s.threads|
            && (forall t :: 0 <= t < |s.threads| ==>
                  s'.threads[t] == s.threads[t] || s'.threads[t] == s.threads[t].(signalled := true))
            && (forall x :: x != c ==> (x in s'.walks <==> x in s.walks) && (x in s.walks ==> s'.walks[x] == s.walks[x]))
            && (c in s'.walks ==> s'.walks[c].ctr == s.ctr && s'.walks[c].scb in s.list)
  {
  }

  lemma VisitCounts(s: State, s': State)
    requires ListOk(s) && CountsOk(s) && s'.waiting == s.waiting && |s'.socks| == |s.socks| && s'.list == s.list
    requires |s'.threads| == |s.threads|
    requires forall t :: 0 <= t < |s.threads| ==>
               s'.threads[t] == s.threads[t] || s'.threads[t] == s.threads[t].(signalled := true)
    ensures ListOk(s') && CountsOk(s')
  {
    forall k | 0 <= k < |s'.waiting|
      ensures s'.waiting[k] == Waiters(s'.threads, k)
    {
      SignalCounts(s.threads, s'.threads, k);
    }
  }

  lemma {:induction false} SignalCounts(a: seq<Thread>, b: seq<Thread>, k: nat)
    requires |a| == |b| && forall t :: 0 <= t < |a| ==> b[t] == a[t] || b[t] == a[t].(signalled := true)
    ensures Waiters(a, k) == Waiters(b, k)
  {
    if a != [] {
      SignalCounts(a[1..], b[1..], k);
    }
  }

  lemma WaiterListed(s: State, t: nat, k: nat)
    requires ListOk(s) && t < |s.threads| && Waits(s.threads[t], k)
    ensures t in s.list
  {
  }

  /** A walk that goes on loses nobody. */
  lemma ResumeKeeps(s: State, c: nat)
    requires Inv(s) && c in s.walks && s.walks[c].socket < |s.socks|
    ensures Inv(Resume(s, c))
  {
    hide ListOk, CountsOk, Covered, VisitAt, Waits, Wanted;
    var s', w := Resume(s, c), s.walks[c];
    var i := if w.ctr != s.ctr then 0 else Position(s.list, w.scb) + 1;
    VisitFrame(s, c, w.socket, i);
    VisitCounts(s, s');
    forall t, k | 0 <= t < |s'.threads| && 0 <= k < |s'.socks| && Waits(s'.threads[t], k) && Wanted(s'.threads[t], k, s'.socks[k])
      ensures Covered(s', t, k)
    {
      WaitedBefore(s.threads[t], s'.threads[t], k, s.socks[k]);
      WaiterListed(s, t, k);
      StillCovered(s, c, i, t, k);
    }
  }

  lemma WaitedBefore(th: Thread, th': Thread, k: nat, so: Sock)
    requires th' == th || th' == th.(signalled := true)
    ensures Waits(th', k) ==> Waits(th, k) && th' == th
    ensures Wanted(th', k, so) == Wanted(th, k, so)
  {
  }

  lemma StillCovered(s: State, c: nat, i: nat, t: nat, k: nat)
    requires ListOk(s) && WalksOk(s) && c in s.walks && Covered(s, t, k) && t in s.list && k < |s.socks|
    requires i == if s.walks[c].ctr != s.ctr then 0 else Position(s.list, s.walks[c].scb) + 1
    requires t < |s.threads|
    ensures var s' := VisitAt(s, c, s.walks[c].socket, i);
            t < |s'.threads| && (Waits(s'.threads[t], k) && Wanted(s'.threads[t], k, s.socks[k]) ==> Covered(s', t, k))
  {
    hide ListOk, Waits, Wanted, VisitAt;
    var s' := VisitAt(s, c, s.walks[c].socket, i);
    VisitFrame(s, c, s.walks[c].socket, i);
    var x :| x in s.walks && s.walks[x].socket == k && Reaches(s, s.walks[x], t);
    if x == c {
      VisitCovers(s, c, k, i, t);
    } else {
      assert Reaches(s', s'.walks[x], t);
    }
  }

  /** An event starts a walk that finds everybody who waits for it. */
  lemma BeginKeeps(s: State, c: nat, k: nat, e: Event)
    requires Inv(s) && Enabled(s, Callback(c, k, e))
    ensures Inv(Begin(s, c, k, e))
  {
    hide ListOk, CountsOk, Covered, VisitAt, Waits, Wanted;
    var s1 := s.(socks := s.socks[k := Apply(s.socks[k], e)]);
    var s' := Begin(s, c, k, e);
    VisitFrame(s1, c, k, 0);
    EventOk(s, s1);
    VisitCounts(s1, s');
    forall t, j | 0 <= t < |s'.threads| && 0 <= j < |s'.socks| && Waits(s'.threads[t], j) && Wanted(s'.threads[t], j, s'.socks[j])
      ensures Covered(s', t, j)
    {
      WaitedBefore(s.threads[t], s'.threads[t], j, s'.socks[j]);
      WaiterListed(s, t, j);
      if j == k {
        SomeoneWaits(s, t, k);
        ListSame(s, s1);
        VisitCovers(s1, c, k, 0, t);
      } else {
        CoveredElsewhere(s, s', c, t, j);
      }
    }
  }

  lemma EventOk(s: State, s1: State)
    requires s1 == s.(socks := s1.socks) && |s1.socks| == |s.socks| && ListOk(s) && CountsOk(s)
    ensures ListOk(s1) && CountsOk(s1)
  {
  }

  lemma ListSame(s: State, s1: State)
    requires ListOk(s) && s1 == s.(socks := s1.socks)
    ensures ListOk(s1)
  {
  }

  lemma SomeoneWaits(s: State, t: nat, k: nat)
    requires CountsOk(s) && t < |s.threads| && k < |s.waiting| && Waits(s.threads[t], k)
    ensures forall so :: Wanted(s.threads[t], k, so) ==> s.waiting[k] != 0
  {
    forall so | Wanted(s.threads[t], k, so)
      ensures s.waiting[k] != 0
    {
      WaiterCounts(s.threads, t, k);
    }
  }

  lemma CoveredElsewhere(s: State, s': State, c: nat, t: nat, k: nat)
    requires Covered(s, t, k) && c !in s.walks && s'.list == s.list && s'.ctr == s.ctr
    requires forall x :: x != c ==> (x in s'.walks <==> x in s.walks) && (x in s.walks ==> s'.walks[x] == s.walks[x])
    ensures Covered(s', t, k)
  {
    var x :| x in s.walks && s.walks[x].socket == k && Reaches(s, s.walks[x], t);
    assert Reaches(s', s'.walks[x], t);
  }

  lemma ReceiveKeeps(s: State, k: nat, left: bool)
    requires Inv(s) && k < |s.socks|
    ensures Inv(Step(s, Receive(k, left)))
  {
    var s' := Step(s, Receive(k, left));
    EventOk(s, s');
    forall t, j | 0 <= t < |s'.threads| && 0 <= j < |s'.socks| && Waits(s'.threads[t], j) && Wanted(s'.threads[t], j, s'.socks[j])
      ensures Covered(s', t, j)
    {
      assert Wanted(s.threads[t], j, s.socks[j]);
      SameCover(s, s', t, j);
    }
  }

  /** Every step of every thread and callback keeps the invariant. */
  lemma StepKeeps(s: State, a: Action)
    requires Inv(s) && Enabled(s, a) && SocketsOk(s)
    ensures Inv(Step(s, a)) && SocketsOk(Step(s, a))
  {
    hide Inv, Advance, Begin, Resume;
    match a {
      case Enter(_, _, _, _, _, _) => EnterKeeps(s, a);
      case Go(t) =>
        match s.threads[t].pc {
          case Link => LinkKeeps(s, t);
          case Unlink => UnlinkKeeps(s, t);
          case _ => AdvanceKeeps(s, t);
        }
        AdvanceSockets(s, t);
      case TimeOut(t) => TimeOutKeeps(s, t);
      case Callback(c, k, e) =>
        BeginKeeps(s, c, k, e);
        BeginSockets(s, c, k, e);
      case WalkOn(c) =>
        ResumeKeeps(s, c);
        ResumeSockets(s, c);
      case Receive(k, left) => ReceiveKeeps(s, k, left);
    }
  }

  /** Walks are for sockets that exist. */
  ghost predicate SocketsOk(s: State) {
    forall c {:trigger s.walks[c]} :: c in s.walks ==> s.walks[c].socket < |s.socks|
  }

  lemma AdvanceSockets(s: State, t: nat)
    requires SocketsOk(s) && t < |s.threads|
    ensures SocketsOk(Advance(s, t))
  {
  }

  lemma BeginSockets(s: State, c: nat, k: nat, e: Event)
    requires SocketsOk(s) && k < |s.socks| && k < |s.waiting|
    ensures SocketsOk(Begin(s, c, k, e))
  {
  }

  lemma ResumeSockets(s: State, c: nat)
    requires SocketsOk(s) && c in s.walks
    ensures SocketsOk(Resume(s, c))
  {
  }

  ghost predicate EnabledRun(s: State, acts: seq<Action>)
    decreases |acts|
  {
    acts == [] || (Enabled(s, acts[0]) && EnabledRun(Step(s, acts[0]), acts[1..]))
  }

  ghost function After(s: State, acts: seq<Action>): (r: State)
    requires EnabledRun(s, acts)
    decreases |acts|
  {
    if acts == [] then s else After(Step(s, acts[0]), acts[1..])
  }

  /** No thread is in select, no callback runs, no counter is raised. */
  ghost predicate Initial(s: State) {
    && s.list == [] && s.walks == map[] && |s.waiting| == |s.socks|
    && (forall t :: 0 <= t < |s.threads| ==> s.threads[t].pc == Outside)
    && (forall k :: 0 <= k < |s.waiting| ==> s.waiting[k] == 0)
  }

  lemma {:induction false} NobodyWaits(threads: seq<Thread>, k: nat)
    requires forall t :: 0 <= t < |threads| ==> threads[t].pc == Outside
    ensures Waiters(threads, k) == 0
  {
    if threads != [] {
      NobodyWaits(threads[1..], k);
    }
  }

  lemma InitialHolds(s: State)
    requires Initial(s)
    ensures Inv(s) && SocketsOk(s)
  {
    forall k | 0 <= k < |s.waiting|
      ensures s.waiting[k] == Waiters(s.threads, k)
    {
      NobodyWaits(s.threads, k);
    }
  }

  lemma {:induction false} AfterKeeps(s: State, acts: seq<Action>)
    requires Inv(s) && SocketsOk(s) && EnabledRun(s, acts)
    ensures Inv(After(s, acts)) && SocketsOk(After(s, acts))
    decreases |acts|
  {
    hide Inv, SocketsOk, Step, Enabled;
    if acts != [] {
      StepKeeps(s, acts[0]);
      AfterKeeps(Step(s, acts[0]), acts[1..]);
    }
  }

  /**
   * In every interleaving: a thread that has gone to sleep in lwip_select without being signalled, while
   * an event it asked for is pending on a socket, will still be reached by a callback's walk for that
   * socket; so with no callback under way there is no such thread.
   */
  lemma NoLostWakeUps(s: State, acts: seq<Action>, t: nat, k: nat)
    requires Initial(s) && EnabledRun(s, acts)
    requires var r := After(s, acts);
             && t < |r.threads| && k < |r.socks| && r.threads[t].pc == Blocked && !r.threads[t].signalled
             && Wanted(r.threads[t], k, r.socks[k])
    ensures Covered(After(s, acts), t, k) && After(s, acts).walks != map[]
  {
    hide Wanted, Reaches, ListOk, CountsOk, WalksOk;
    var r := After(s, acts);
    InitialHolds(s);
    AfterKeeps(s, acts);
    assert Waits(r.threads[t], k) by { WantedInRange(r.threads[t], k, r.socks[k]); }
  }

  lemma WantedInRange(th: Thread, k: nat, so: Sock)
    requires Wanted(th, k, so)
    ensures k < th.max
  {
  }
}
