/** The order in which a mailbox hands out its messages, over whole runs. */
module RtxFifo {
  import opened Links
  import opened TaskLists
  import opened RtxOrder
  import opened Delays
  import opened RtxList
  import opened RtxSched
  import opened RtxPlaces
  import opened RtxRest
  import opened RtxSpec
  import opened RtxObjects
  import opened RtxWaits
  import opened RtxMail
  import opened RtxFrames
  import RtxKeeps

  /** The message that a call brings into the ring of m, or past it to a waiting receiver. */
  ghost function Entering(k: KState, a: Call, m: Ptr): (q: seq<int>)
    requires m in k.mbx
  {
    var b, s := k.mbx[m], k.List(m);
    if !Names(a, m) then []
    else if a.SendMbx? then if (s != [] && b.state == 1) || b.count != b.size then [a.msg] else []
    else if b.count > 0 && s != [] && b.state == 2 then [At(k.msg, s[0], 0)]
    else []
  }

  /** The message that a call gives to a receiver at m. */
  ghost function Getting(k: KState, a: Call, m: Ptr): (q: seq<int>)
    requires m in k.mbx && RingOk(k.mbx[m])
    ensures multiset(q) == Received(k, a, m)
  {
    if !Names(a, m) then []
    else if a.SendMbx? then if k.List(m) != [] && k.mbx[m].state == 1 then [a.msg] else []
    else if Messages(k, m) == [] then [] else [Messages(k, m)[0]]
  }

  lemma SendOrder(k: KState, m: Ptr, x: int, n: nat)
    requires m in k.mbx && RingOk(k.mbx[m]) && MbxOk(k, m)
    ensures var k', a := MbxSend(k, m, x, n), SendMbx(m, x, n);
            m in k'.mbx && RingOk(k'.mbx[m]) && Ring(k.mbx[m]) + Entering(k, a, m) == Getting(k, a, m) + Ring(k'.mbx[m])
  {
    hide Ring, RingOk, Store, Wake, BlockOn, Messages;
    var b := k.mbx[m];
    SendRing(k, m, x, n);
    if k.List(m) != [] && b.state == 1 {
      NoCount(b);
    } else if b.count != b.size {
      HasRoom(b);
      RingStore(b, x);
    } else {
      RingSame(b, b.(state := 2));
    }
  }

  lemma NoCount(b: Mailbox)
    requires RingOk(b)
    ensures b.count == 0 ==> Ring(b) == []
  {
  }

  lemma HasRoom(b: Mailbox)
    requires RingOk(b)
    ensures b.count <= b.size
  {
  }

  /** The ring of m after a send. */
  lemma SendRing(k: KState, m: Ptr, x: int, n: nat)
    requires m in k.mbx
    ensures var k', b := MbxSend(k, m, x, n), k.mbx[m];
            && m in k'.mbx
            && k'.mbx[m] == if k.List(m) != [] && b.state == 1 then b
                            else if b.count != b.size then Store(b, x).(count := b.count + 1)
                            else if n == 0 || k.List(m) != [] then b else b.(state := 2)
  {
    hide Store, Wake, BlockOn;
    var b := k.mbx[m];
    ReturnFrame(k, OS_R_OK);
    if k.List(m) != [] {
      WakeFrame(Return(k, OS_R_OK), m, Message(x));
    }
    BlockOnFrame(k.(mbx := k.mbx[m := if k.List(m) == [] then b.(state := 2) else b], msg := k.msg[k.c.run := x]), m, n, WAIT_MBX);
  }

  lemma WaitOrder(k: KState, m: Ptr, n: nat)
    requires m in k.mbx && RingOk(k.mbx[m]) && MbxOk(k, m)
    ensures var k', a := MbxWait(k, m, n), WaitMbx(m, n);
            m in k'.mbx && RingOk(k'.mbx[m]) && Ring(k.mbx[m]) + Entering(k, a, m) == Getting(k, a, m) + Ring(k'.mbx[m])
  {
    hide Ring, RingOk, Store, Oldest, MbxWait, Blocked;
    var b, s := k.mbx[m], k.List(m);
    WaitRing(k, m, n);
    NoCount(b);
    if b.count > 0 {
      RingTake(b);
      assert Ring(b) == [Ring(b)[0]] + Ring(b)[1..];
      if s != [] {
        RingTurn(b, At(k.msg, s[0], 0));
        assert Ring(b) + [At(k.msg, s[0], 0)] == [Ring(b)[0]] + (Ring(b)[1..] + [At(k.msg, s[0], 0)]);
      }
    } else {
      RingSame(b, b.(state := 1));
    }
  }

  /** The ring of m after a receive. */
  lemma WaitRing(k: KState, m: Ptr, n: nat)
    requires m in k.mbx
    ensures var k', b, s := MbxWait(k, m, n), k.mbx[m], k.List(m);
            && m in k'.mbx
            && k'.mbx[m] == if b.count > 0 then
                              if s != [] && b.state == 2 then Store(b.(last := Step(b.last, b.size)), At(k.msg, s[0], 0))
                              else b.(last := Step(b.last, b.size), count := b.count - 1)
                            else if n == 0 || s != [] then b else b.(state := 1)
  {
    hide MbxWait, Store;
    if k.mbx[m].count > 0 {
      TakeRing(k, m, n);
    } else {
      EmptyRing(k, m, n);
    }
  }

  lemma TakeRing(k: KState, m: Ptr, n: nat)
    requires m in k.mbx && k.mbx[m].count > 0
    ensures var b, s := k.mbx[m], k.List(m); var b1 := b.(last := Step(b.last, b.size));
            MbxWait(k, m, n).mbx ==
            k.mbx[m := if s != [] && b.state == 2 then Store(b1, At(k.msg, s[0], 0)) else b1.(count := b.count - 1)]
  {
    hide Store, Oldest, Wake, BlockOn, Return;
    var b := k.mbx[m];
    var k1 := k.(ret := k.ret[k.c.run := Message(Oldest(b))]);
    if k.List(m) != [] {
      var b1 := Store(b.(last := Step(b.last, b.size)), At(k.msg, k.List(m)[0], 0));
      WakeFrame(k1.(mbx := k.mbx[m := b1]), m, Val(0));
    }
  }

  lemma EmptyRing(k: KState, m: Ptr, n: nat)
    requires m in k.mbx && k.mbx[m].count == 0
    ensures var b := k.mbx[m];
            MbxWait(k, m, n).mbx ==
            if n == 0 then k.mbx else k.mbx[m := if k.List(m) == [] then b.(state := 1) else b]
  {
    hide Store, Oldest, Wake, BlockOn, Return;
    var b := k.mbx[m];
    ReturnFrame(k, OS_R_TMO);
    BlockOnFrame(k.(mbx := k.mbx[m := if k.List(m) == [] then b.(state := 1) else b]), m, n, WAIT_MBX);
  }

  /** One call: what is in the ring and what enters it comes out in that order. */
  lemma CallOrder(k: KState, a: Call, m: Ptr)
    requires IsMailbox(k, m) && Legal(k, a)
    ensures m in Do(k, a).mbx && RingOk(Do(k, a).mbx[m])
    ensures Ring(k.mbx[m]) + Entering(k, a, m) == Getting(k, a, m) + Ring(Do(k, a).mbx[m])
  {
    hide KInv, Legal, Apply, Ring, RingOk, Messages, MbxSend, MbxWait, IsObject;
    KInvObjects(k);
    MailboxAt(k, m);
    DoMail(k, a);
    if Names(a, m) {
      ApplySend(k, a);
      if a.SendMbx? {
        SendOrder(k, m, a.msg, a.ticks);
      } else {
        WaitOrder(k, m, a.ticks);
      }
    } else {
      OthersKeepMail(k, a, m);
    }
  }

  ghost function Entered(k: KState, calls: seq<Call>, m: Ptr): (q: seq<int>)
    requires IsMailbox(k, m) && RtxKeeps.LegalRun(k, calls)
    decreases |calls|
  {
    if calls == [] then []
    else
      CallMail(k, calls[0], m);
      RtxKeeps.CallKeepsInvariant(k, calls[0]);
      Entering(k, calls[0], m) + Entered(Do(k, calls[0]), calls[1..], m)
  }

  ghost function Got(k: KState, calls: seq<Call>, m: Ptr): (q: seq<int>)
    requires IsMailbox(k, m) && RtxKeeps.LegalRun(k, calls)
    decreases |calls|
  {
    if calls == [] then []
    else
      CallMail(k, calls[0], m);
      RtxKeeps.CallKeepsInvariant(k, calls[0]);
      Getting(k, calls[0], m) + Got(Do(k, calls[0]), calls[1..], m)
  }

  /**
   * Over every run the messages received from m, and then those in its ring, are those that were in the ring and
   * those that entered it, in the order in which they entered: none is lost, doubled or overtaken in the ring.
   */
  lemma {:induction false} RunOrder(k: KState, calls: seq<Call>, m: Ptr)
    requires IsMailbox(k, m) && RtxKeeps.LegalRun(k, calls)
    ensures IsMailbox(RtxKeeps.After(k, calls), m)
    ensures Ring(k.mbx[m]) + Entered(k, calls, m) == Got(k, calls, m) + Ring(RtxKeeps.After(k, calls).mbx[m])
    decreases |calls|
  {
    hide KInv, Legal, Do, RingOk, Ring, Entering, Getting, IsObject;
    if calls != [] {
      var a, k1 := calls[0], Do(k, calls[0]);
      CallMail(k, a, m);
      RtxKeeps.CallKeepsInvariant(k, a);
      CallOrder(k, a, m);
      RunOrder(k1, calls[1..], m);
      Chain(Ring(k.mbx[m]), Entering(k, a, m), Getting(k, a, m), Ring(k1.mbx[m]), Entered(k1, calls[1..], m),
            Got(k1, calls[1..], m), Ring(RtxKeeps.After(k1, calls[1..]).mbx[m]));
    }
  }

  lemma Chain(r0: seq<int>, e0: seq<int>, g0: seq<int>, r1: seq<int>, e1: seq<int>, g1: seq<int>, r2: seq<int>)
    requires r0 + e0 == g0 + r1 && r1 + e1 == g1 + r2
    ensures r0 + (e0 + e1) == (g0 + g1) + r2
  {
    assert r0 + (e0 + e1) == (r0 + e0) + e1;
    assert (g0 + r1) + e1 == g0 + (r1 + e1);
    assert g0 + (g1 + r2) == (g0 + g1) + r2;
  }

  // ----- senders that do not wait

  /** No sender waits at m. */
  ghost predicate NoSenders(k: KState, m: Ptr)
    requires m in k.mbx
  {
    k.List(m) != [] ==> k.mbx[m].state == 1
  }

  /** The messages that the calls of a run send to m and that m accepts, in the order of the calls. */
  ghost function Accepted(k: KState, calls: seq<Call>, m: Ptr): (q: seq<int>)
    requires IsMailbox(k, m) && RtxKeeps.LegalRun(k, calls)
    decreases |calls|
  {
    if calls == [] then []
    else
      CallMail(k, calls[0], m);
      RtxKeeps.CallKeepsInvariant(k, calls[0]);
      (if Sent(k, calls[0], m) != multiset{} then [calls[0].msg] else []) + Accepted(Do(k, calls[0]), calls[1..], m)
  }

  /** Senders to m in the run do not wait for room. */
  predicate Impatient(calls: seq<Call>, m: Ptr) {
    forall i :: 0 <= i < |calls| && calls[i].SendMbx? && calls[i].obj == m ==> calls[i].ticks == 0
  }

  lemma SendLists(k: KState, m: Ptr, x: int)
    requires m in k.mbx && NoSenders(k, m) && m != RDY
    ensures var r := MbxSend(k, m, x, 0); r.List(m) != [] ==> r.mbx[m].state == 1
  {
    hide Store, Dispatch, WakeFirst;
    SendRing(k, m, x, 0);
    if k.List(m) != [] {
      WokenLists(k.c, m);
    }
  }

  lemma WaitLists(k: KState, m: Ptr, n: nat)
    requires m in k.mbx && NoSenders(k, m) && MbxOk(k, m)
    ensures var r := MbxWait(k, m, n); r.List(m) != [] ==> r.mbx[m].state == 1
  {
    hide Store, Oldest, Dispatch, WakeFirst, Block, QueueRun, RingOk;
    WaitRing(k, m, n);
  }

  lemma CallImpatient(k: KState, a: Call, m: Ptr)
    requires IsMailbox(k, m) && Legal(k, a) && NoSenders(k, m) && Impatient([a], m)
    ensures m in Do(k, a).mbx && NoSenders(Do(k, a), m)
    ensures Entering(k, a, m) == if Sent(k, a, m) != multiset{} then [a.msg] else []
  {
    hide KInv, Legal, Apply, RingOk, MbxSend, MbxWait, LeftBy, Leaving;
    KInvObjects(k);
    MailboxAt(k, m);
    DoMail(k, a);
    DoLists(k, a, m);
    assert [a][0] == a;
    if Names(a, m) {
      ApplySend(k, a);
      if a.SendMbx? {
        SendRing(k, m, a.msg, a.ticks);
        SendLists(k, m, a.msg);
      } else {
        WaitRing(k, m, a.ticks);
        WaitLists(k, m, a.ticks);
      }
    } else {
      OthersKeepMail(k, a, m);
      NamedOthers(k, a, m);
      OthersLeave(k, a, m);
      FewerWait(k, Apply(k, a).c, Leaving(k, a, m), m);
    }
  }

  lemma FewerWait(k: KState, c': Core, gone: seq<Ptr>, m: Ptr)
    requires LeftBy(k, c', gone, m)
    ensures c'.List(m) != [] ==> k.List(m) != []
  {
    if c'.List(m) != [] {
      assert c'.List(m)[0] in multiset(c'.List(m));
    }
  }

  lemma DoLists(k: KState, a: Call, m: Ptr)
    ensures Do(k, a).List(m) == Apply(k, a).List(m)
  {
    hide Apply;
  }

  /**
   * If no sender waits, a mailbox is a queue: the messages received, and then those in the ring, are those that were
   * in the ring and those that the calls sent and m accepted, in the order of the calls.
   */
  lemma {:induction false} RunFifo(k: KState, calls: seq<Call>, m: Ptr)
    requires IsMailbox(k, m) && RtxKeeps.LegalRun(k, calls) && NoSenders(k, m) && Impatient(calls, m)
    ensures IsMailbox(RtxKeeps.After(k, calls), m)
    ensures Ring(k.mbx[m]) + Accepted(k, calls, m) == Got(k, calls, m) + Ring(RtxKeeps.After(k, calls).mbx[m])
  {
    hide KInv, Ring, RingOk, IsObject;
    RunOrder(k, calls, m);
    EnterAsSent(k, calls, m);
  }

  lemma {:induction false} EnterAsSent(k: KState, calls: seq<Call>, m: Ptr)
    requires IsMailbox(k, m) && RtxKeeps.LegalRun(k, calls) && NoSenders(k, m) && Impatient(calls, m)
    ensures Entered(k, calls, m) == Accepted(k, calls, m)
    decreases |calls|
  {
    hide KInv, Legal, Do, RingOk, Entering, IsObject, NoSenders, Sent;
    if calls != [] {
      var a := calls[0];
      CallMail(k, a, m);
      RtxKeeps.CallKeepsInvariant(k, a);
      assert Impatient([a], m);
      CallImpatient(k, a, m);
      assert forall i :: 0 <= i < |calls[1..]| ==> calls[1..][i] == calls[i + 1];
      EnterAsSent(Do(k, a), calls[1..], m);
    }
  }
}
