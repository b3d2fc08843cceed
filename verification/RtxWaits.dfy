/** What single calls do to tokens, mutexes, mailboxes and time-outs. */
module RtxWaits {
  import opened Links
  import opened TaskLists
  import opened RtxOrder
  import opened Delays
  import opened RtxList
  import opened RtxSched
  import opened RtxPlaces
  import opened RtxRest
  import opened RtxSpec
  import opened RtxObjects

  // ----- time-outs

  /** The tasks of s that do not time out with this tick. */
  ghost function Stay(d: seq<Delay>, s: seq<Ptr>): (r: seq<Ptr>) {
    if s == [] then []
    else (if Delay(s[0], 1) in d then [] else [s[0]]) + Stay(d, s[1..])
  }

  lemma {:induction false} StayAll(d: seq<Delay>, s: seq<Ptr>)
    requires forall i :: 0 <= i < |s| ==> Delay(s[i], 1) !in d
    ensures Stay(d, s) == s
  {
    if s != [] {
      StayAll(d, s[1..]);
    }
  }

  /** Unlinking the i-th task of s before or after the others that time out makes no difference. */
  lemma {:induction false} StayDel(d: seq<Delay>, s: seq<Ptr>, i: nat)
    requires NoDup(s) && i < |s| && d != [] && d[0] == Delay(s[i], 1)
    requires NoDup(Tasks(d))
    ensures Stay(d[1..], Del(s, i)) == Stay(d, s)
  {
    assert d == [d[0]] + d[1..];
    assert forall j :: 0 <= j < |s| && j != i ==> (Delay(s[j], 1) in d <==> Delay(s[j], 1) in d[1..]);
    if i == 0 {
      assert Del(s, 0) == s[1..];
      StaySame(d, d[1..], s[1..]);
    } else {
      assert Del(s, i)[0] == s[0] && Del(s, i)[1..] == Del(s[1..], i - 1);
      StayDel(d, s[1..], i - 1);
    }
  }

  lemma {:induction false} StaySame(d: seq<Delay>, d': seq<Delay>, s: seq<Ptr>)
    requires forall i :: 0 <= i < |s| ==> (Delay(s[i], 1) in d <==> Delay(s[i], 1) in d')
    ensures Stay(d, s) == Stay(d', s)
  {
    if s != [] {
      StaySame(d, d', s[1..]);
    }
  }

  /** One task's time-out seen from a wait list h. */
  lemma TimeUpStay(c: Core, h: Ptr)
    requires Sched(c, {}, NULL) && c.d != [] && c.d[0].rem == 1 && h in c.g.lists && h != RDY
    ensures Stay(TimeUp(c).d, TimeUp(c).List(h)) == Stay(c.d, c.List(h))
  {
    hide Sorted, Ins, Stay;
    var t, s := c.d[0].task, c.g.lists[h];
    DelayedLive(c, {}, NULL, 0);
    OnListOrLoose(c, {}, NULL, t);
    assert c.d == [c.d[0]] + c.d[1..];
    if c.g.on[t] == h {
      StayDel(c.d, s, Index(s, t));
    } else {
      assert TimeUp(c).List(h) == s;
      assert t !in s;
      StaySame(c.d, c.d[1..], s);
    }
  }

  /** rest is d without its first n entries, and those are the ones with one tick left. */
  ghost predicate DueCut(d: seq<Delay>, rest: seq<Delay>, n: nat) {
    && n <= |d| && rest == d[n..]
    && (forall i :: 0 <= i < n ==> d[i].rem == 1)
    && (forall i :: n <= i < |d| ==> d[i].rem > 1)
  }

  lemma DueCutNext(d: seq<Delay>, rest: seq<Delay>, n: nat)
    requires d != [] && d[0].rem == 1 && DueCut(d[1..], rest, n)
    ensures DueCut(d, rest, n + 1)
  {
    assert d[n + 1..] == d[1..][n..];
    assert forall i :: 1 <= i < |d| ==> d[i] == d[1..][i - 1];
  }

  lemma DueCutNone(d: seq<Delay>)
    requires forall i :: 0 <= i < |d| ==> d[i].rem > 1
    ensures DueCut(d, d, 0)
  {
    assert d[0..] == d;
  }

  /**
   * rt_dec_dly: of every wait list exactly the tasks with one tick left disappear, in place; the
   * other delayed tasks stay, in their order, and Age then takes a tick from each of them.
   */
  lemma {:induction false} ExpireReleasesExactly(c: Core, h: Ptr)
    requires Sched(c, {}, NULL) && h in c.g.lists && h != RDY
    ensures Expire(c).List(h) == Stay(c.d, c.List(h))
    ensures exists n :: DueCut(c.d, Expire(c).d, n)
    decreases |c.d|
  {
    hide Sched, Stay, TimeUp, DueCut;
    if c.d != [] && c.d[0].rem == 1 {
      var c1 := TimeUp(c);
      TimeUpKeeps(c, {}, NULL);
      TimeUpStay(c, h);
      TimeUpFields(c);
      ExpireReleasesExactly(c1, h);
      var n :| DueCut(c1.d, Expire(c1).d, n);
      DueCutNext(c.d, Expire(c1).d, n);
      ExpireNext(c);
    } else {
      NoneDue(c, h);
      DueCutNone(c.d);
      assert Expire(c) == c;
    }
  }

  lemma ExpireNext(c: Core)
    requires c.d != [] && c.d[0].rem == 1
    ensures Expire(c) == Expire(TimeUp(c))
  {
    hide TimeUp;
  }

  lemma TimeUpFields(c: Core)
    requires c.d != []
    ensures TimeUp(c).d == c.d[1..] && TimeUp(c).g.tasks == c.g.tasks
    ensures TimeUp(c).state == c.state[c.d[0].task := READY]
    ensures forall h :: h in c.g.lists ==> h in TimeUp(c).g.lists
  {
  }

  lemma NoneDue(c: Core, h: Ptr)
    requires Sched(c, {}, NULL) && h in c.g.lists && (c.d == [] || c.d[0].rem != 1)
    ensures Stay(c.d, c.List(h)) == c.List(h)
    ensures forall i :: 0 <= i < |c.d| ==> c.d[i].rem > 1
  {
    hide Sorted, Stay, Placed;
    StayAll(c.d, c.List(h));
  }

  /** The tasks that time out are ready afterwards; no other task changes its state. */
  lemma {:induction false} ExpireStates(c: Core, t: Ptr)
    requires Sched(c, {}, NULL) && t in c.g.tasks
    ensures Expire(c).State(t) == if Delay(t, 1) in c.d then READY else c.State(t)
    decreases |c.d|
  {
    hide Sched, TimeUp;
    if c.d != [] && c.d[0].rem == 1 {
      TimeUpFields(c);
      TimeUpKeeps(c, {}, NULL);
      ExpireStates(TimeUp(c), t);
      assert c.d == [c.d[0]] + c.d[1..];
    } else {
      NoneDue(c, RDY) by { SchedHeads(c, {}, NULL); }
    }
  }

  // ----- mailboxes

  /** The messages in the ring, oldest first. */
  ghost function Ring(b: Mailbox): (q: seq<int>)
    requires RingOk(b)
    ensures |q| == b.count
  {
    seq(b.count, i requires 0 <= i < b.count => b.msg[if b.last + i < b.size then b.last + i else b.last + i - b.size])
  }

  /** The messages of blocked senders, in the order of the wait list. */
  ghost function Blocked(msg: map<Ptr, int>, s: seq<Ptr>): (q: seq<int>)
    ensures |q| == |s| && forall i :: 0 <= i < |s| ==> q[i] == At(msg, s[i], 0)
  {
    seq(|s|, i requires 0 <= i < |s| => At(msg, s[i], 0))
  }

  /** The mailbox as one queue: the ring followed by the messages of the blocked senders. */
  ghost function Messages(k: KState, m: Ptr): (q: seq<int>)
    requires m in k.mbx && RingOk(k.mbx[m])
  {
    Ring(k.mbx[m]) + if k.mbx[m].state == 2 then Blocked(k.msg, k.List(m)) else []
  }

  lemma RingStore(b: Mailbox, x: int)
    requires RingOk(b) && b.count < b.size
    ensures RingOk(Store(b, x).(count := b.count + 1)) && Ring(Store(b, x).(count := b.count + 1)) == Ring(b) + [x]
  {
  }

  lemma RingTake(b: Mailbox)
    requires RingOk(b) && b.count > 0
    ensures Ring(b)[0] == Oldest(b)
    ensures var b' := b.(last := Step(b.last, b.size), count := b.count - 1);
            RingOk(b') && Ring(b') == Ring(b)[1..]
  {
  }

  /** On a full ring: the oldest message out and x in. */
  lemma RingTurn(b: Mailbox, x: int)
    requires RingOk(b) && b.count == b.size
    ensures var b' := Store(b.(last := Step(b.last, b.size)), x);
            RingOk(b') && Ring(b') == Ring(b)[1..] + [x]
  {
  }

  /** What os_tsk and the lists look like after a wake-up, away from the ready list. */
  lemma WokenLists(c: Core, h: Ptr)
    requires c.List(h) != [] && h != RDY
    ensures Dispatch(WakeFirst(c, h), c.List(h)[0]).List(h) == c.List(h)[1..]
  {
    hide Dispatch;
    DispatchTouches(WakeFirst(c, h), c.List(h)[0]);
  }

  lemma BlockedLists(c: Core, h: Ptr, n: nat, st: TaskState)
    requires h != RDY && n != 0
    ensures Block(QueueRun(c, h), n, st).List(h) == Enter(c.prio, c.List(h), c.run)
  {
    hide DispatchNext, DelayPut, Ins, InsertPos;
    var c1 := QueueRun(c, h);
    var d := if n < NO_TIMEOUT then DelayPut(c1.d, c1.run, n) else c1.d;
    PreemptCheckTouches(c1.(d := d, state := c1.state[c1.run := st]));
  }

  /** A sender blocks: its message takes its place among the blocked senders' messages. */
  lemma SendBlocks(k: KState, m: Ptr, x: int, n: nat)
    requires KInv(k) && IsObject(k, m, MCB) && m in k.mbx && RingOk(k.mbx[m])
    requires n != 0 && k.mbx[m].count == k.mbx[m].size && (k.List(m) != [] ==> k.mbx[m].state == 2)
    ensures var k', b, s := MbxSend(k, m, x, n), k.mbx[m], k.List(m);
            var i := InsertPos(k.c.prio, s, k.c.Prio(k.c.run));
            && m in k'.mbx && RingOk(k'.mbx[m]) && |Messages(k, m)| == b.count + |s|
            && Messages(k', m) == Ins(Messages(k, m), b.count + i, x)
  {
    hide AtRest, Objects, Ring, Block, QueueRun, RingOk, InsertPos, Blocked, Ins;
    var run, k', b, s := k.c.run, MbxSend(k, m, x, n), k.mbx[m], k.List(m);
    var i := InsertPos(k.c.prio, s, k.c.Prio(run));
    BlockedLists(k.c, m, n, WAIT_MBX);
    RunOnNoList(k.c, m);
    RingSame(b, k'.mbx[m]);
    BlockedInsert(k.msg, s, i, run, x);
    JoinInsert(Ring(b), Blocked(k.msg, s), i, x);
    assert k'.List(m) == Ins(s, i, run);
    assert k'.mbx[m].state == 2;
  }

  /**
   * rt_mbx_send. A waiting receiver (then the queue is empty) gets the message itself; otherwise the
   * message joins the queue, at the end, or on a full ring at the sender's place among the blocked
   * senders; a call that may not wait leaves a full mailbox alone.
   */
  lemma SendJoinsQueue(k: KState, m: Ptr, x: int, n: nat)
    requires KInv(k) && IsObject(k, m, MCB) && m in k.mbx && RingOk(k.mbx[m])
    ensures var k', b, s := MbxSend(k, m, x, n), k.mbx[m], k.List(m);
            var i := InsertPos(k.c.prio, s, k.c.Prio(k.c.run));
            && m in k'.mbx && RingOk(k'.mbx[m])
            && if s != [] && b.state == 1 then
                 Messages(k, m) == [] && Messages(k', m) == [] && k'.ret[s[0]] == Message(x) && k'.List(m) == s[1..]
               else if b.count < b.size then Messages(k', m) == Messages(k, m) + [x]
               else if n == 0 then Messages(k', m) == Messages(k, m) && k'.ret[k.c.run] == Code(OS_R_TMO)
               else |Messages(k, m)| == b.count + |s| && Messages(k', m) == Ins(Messages(k, m), b.count + i, x)
  {
    hide AtRest, Objects, Ring, Block, QueueRun, Dispatch, WakeFirst, Blocked, Ins, Messages, RingOk, MbxSend;
    var b, s := k.mbx[m], k.List(m);
    MailboxAt(k, m);
    if s != [] && b.state == 1 {
      SendToReceiver(k, m, x, n);
    } else if b.count < b.size {
      SendStores(k, m, x, n);
    } else if n == 0 {
      SendRefused(k, m, x);
    } else {
      SendBlocks(k, m, x, n);
    }
  }

  lemma SendToReceiver(k: KState, m: Ptr, x: int, n: nat)
    requires KInv(k) && IsObject(k, m, MCB) && m in k.mbx && RingOk(k.mbx[m])
    requires k.List(m) != [] && k.mbx[m].state == 1 && k.mbx[m].count == 0
    ensures var k', s := MbxSend(k, m, x, n), k.List(m);
            && m in k'.mbx && RingOk(k'.mbx[m])
            && Messages(k, m) == [] && Messages(k', m) == [] && k'.ret[s[0]] == Message(x) && k'.List(m) == s[1..]
  {
    hide AtRest, Objects, Dispatch, WakeFirst, Blocked;
    WokenLists(k.c, m);
    assert Ring(k.mbx[m]) == [];
  }

  lemma SendStores(k: KState, m: Ptr, x: int, n: nat)
    requires m in k.mbx && RingOk(k.mbx[m]) && k.mbx[m].count < k.mbx[m].size && k.List(m) == []
    ensures var k' := MbxSend(k, m, x, n);
            m in k'.mbx && RingOk(k'.mbx[m]) && Messages(k', m) == Messages(k, m) + [x]
  {
    hide Ring, Store;
    RingStore(k.mbx[m], x);
  }

  lemma SendRefused(k: KState, m: Ptr, x: int)
    requires m in k.mbx && RingOk(k.mbx[m]) && k.mbx[m].count == k.mbx[m].size
    requires k.List(m) != [] ==> k.mbx[m].state == 2
    ensures var k' := MbxSend(k, m, x, 0);
            && m in k'.mbx && RingOk(k'.mbx[m])
            && Messages(k', m) == Messages(k, m) && k'.ret[k.c.run] == Code(OS_R_TMO)
  {
    hide Ring, Blocked;
  }

  lemma MailboxAt(k: KState, m: Ptr)
    requires Objects(k) && IsObject(k, m, MCB)
    ensures MbxOk(k, m)
    ensures m in k.mbx && RingOk(k.mbx[m]) && k.mbx[m].count <= k.mbx[m].size
    ensures k.List(m) != [] ==>
              (k.mbx[m].state == 1 && k.mbx[m].count == 0) || (k.mbx[m].state == 2 && k.mbx[m].count == k.mbx[m].size)
    ensures k.mbx[m].size >= 1
  {
    assert ObjectOk(k, m);
  }

  lemma RunOnNoList(c: Core, h: Ptr)
    requires AtRest(c) && h in c.g.lists && h != RDY
    ensures c.run !in c.g.lists[h]
  {
    assert Placed(c, c.run);
  }

  lemma RingSame(b: Mailbox, b': Mailbox)
    requires RingOk(b) && b' == b.(state := b'.state)
    ensures RingOk(b') && Ring(b') == Ring(b)
  {
  }

  lemma BlockedInsert(msg: map<Ptr, int>, s: seq<Ptr>, i: nat, t: Ptr, x: int)
    requires i <= |s| && t !in s
    ensures Blocked(msg[t := x], Ins(s, i, t)) == Ins(Blocked(msg, s), i, x)
  {
    var l, r := Blocked(msg[t := x], Ins(s, i, t)), Ins(Blocked(msg, s), i, x);
    forall j | 0 <= j < |l|
      ensures l[j] == r[j]
    {
      if j != i {
        assert Ins(s, i, t)[j] == s[if j < i then j else j - 1];
        assert s[if j < i then j else j - 1] in s;
      }
    }
  }

  lemma JoinInsert(a: seq<int>, b: seq<int>, i: nat, x: int)
    requires i <= |b|
    ensures a + Ins(b, i, x) == Ins(a + b, |a| + i, x)
  {
  }

  /** A receiver frees a ring slot for the first blocked sender. */
  lemma WaitFromSender(k: KState, m: Ptr, n: nat)
    requires KInv(k) && IsObject(k, m, MCB) && m in k.mbx && RingOk(k.mbx[m])
    requires k.mbx[m].count == k.mbx[m].size && k.List(m) != [] && k.mbx[m].state == 2
    ensures var k', q := MbxWait(k, m, n), Messages(k, m);
            && m in k'.mbx && RingOk(k'.mbx[m])
            && q != [] && k'.ret[k.c.run] == Message(q[0]) && Messages(k', m) == q[1..]
  {
    hide AtRest, Objects, Ring, Dispatch, WakeFirst, Blocked, Store, Oldest;
    var k', b, s := MbxWait(k, m, n), k.mbx[m], k.List(m);
    RingTake(b);
    RingTurn(b, At(k.msg, s[0], 0));
    StoreState(b.(last := Step(b.last, b.size)), At(k.msg, s[0], 0));
    WokenLists(k.c, m);
    RunOnNoList(k.c, m);
    assert s[0] in s && s[0] != k.c.run;
    assert k'.List(m) == s[1..];
    assert Blocked(k.msg, s) == [At(k.msg, s[0], 0)] + Blocked(k.msg, s[1..]);
    SliceJoin(Ring(b), At(k.msg, s[0], 0), Blocked(k.msg, s[1..]));
  }

  lemma SliceJoin(a: seq<int>, x: int, b: seq<int>)
    requires a != []
    ensures (a + ([x] + b))[0] == a[0] && (a + ([x] + b))[1..] == (a[1..] + [x]) + b
  {
  }

  lemma StoreState(b: Mailbox, x: int)
    ensures Store(b, x).state == b.state
  {
  }

  lemma WaitFromRing(k: KState, m: Ptr, n: nat)
    requires KInv(k) && IsObject(k, m, MCB) && m in k.mbx && RingOk(k.mbx[m])
    requires k.mbx[m].count > 0 && k.List(m) == []
    ensures var k', q := MbxWait(k, m, n), Messages(k, m);
            && m in k'.mbx && RingOk(k'.mbx[m])
            && q != [] && k'.ret[k.c.run] == Message(q[0]) && Messages(k', m) == q[1..]
  {
    hide AtRest, Objects, Ring, Oldest;
    var b := k.mbx[m];
    RingTake(b);
    assert Messages(k, m) == Ring(b);
    assert Messages(MbxWait(k, m, n), m) == Ring(b.(last := Step(b.last, b.size), count := b.count - 1));
  }

  lemma WaitOnEmpty(k: KState, m: Ptr, n: nat)
    requires KInv(k) && IsObject(k, m, MCB) && m in k.mbx && RingOk(k.mbx[m]) && k.mbx[m].count == 0
    requires k.List(m) != [] ==> k.mbx[m].state == 1
    ensures var k' := MbxWait(k, m, n);
            && m in k'.mbx && RingOk(k'.mbx[m])
            && Messages(k, m) == [] && Messages(k', m) == [] && k'.ret[k.c.run] == Code(OS_R_TMO)
  {
    hide AtRest, Objects, Ring, Block, QueueRun, Blocked, KInv, IsObject;
    var b := k.mbx[m];
    RingEmpty(b);
    RingSame(b, MbxWait(k, m, n).mbx[m]);
    WaitState(k, m, n);
  }

  lemma RingEmpty(b: Mailbox)
    requires RingOk(b) && b.count == 0
    ensures Ring(b) == []
  {
  }

  lemma WaitState(k: KState, m: Ptr, n: nat)
    requires m in k.mbx && k.mbx[m].count == 0 && (k.List(m) != [] ==> k.mbx[m].state == 1)
    ensures n != 0 ==> MbxWait(k, m, n).mbx[m].state == 1
    ensures n == 0 ==> MbxWait(k, m, n).mbx == k.mbx && MbxWait(k, m, n).List(m) == k.List(m)
  {
    hide Block, QueueRun;
  }

  /**
   * rt_mbx_wait. The oldest message of the queue is returned and the rest keeps its order, also when
   * the first blocked sender's message moves into the ring; a receiver waits only on an empty queue.
   */
  lemma WaitTakesOldest(k: KState, m: Ptr, n: nat)
    requires KInv(k) && IsObject(k, m, MCB) && m in k.mbx && RingOk(k.mbx[m])
    ensures var k', q := MbxWait(k, m, n), Messages(k, m);
            && m in k'.mbx && RingOk(k'.mbx[m])
            && if q != [] then k'.ret[k.c.run] == Message(q[0]) && Messages(k', m) == q[1..]
               else Messages(k', m) == [] && k'.ret[k.c.run] == Code(OS_R_TMO)
  {
    hide AtRest, Objects, Messages, MbxWait, RingOk;
    var b := k.mbx[m];
    MailboxAt(k, m);
    if b.count > 0 && k.List(m) != [] {
      WaitFromSender(k, m, n);
    } else if b.count > 0 {
      WaitFromRing(k, m, n);
    } else {
      WaitOnEmpty(k, m, n);
    }
  }
}
