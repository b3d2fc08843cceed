/** What select promises in terms of the callbacks and calls of a run, and what one call does when it runs alone. */
module SelectHistory {
  import opened SelectProtocol

  predicate Happens(a: Action, k: nat, e: Event) {
    a.Callback? && a.socket == k && a.event == e
  }

  /** How many callbacks of a run report event e of socket k. */
  function Count(acts: seq<Action>, k: nat, e: Event): (n: nat) {
    if acts == [] then 0 else (if Happens(acts[0], k, e) then 1 else 0) + Count(acts[1..], k, e)
  }

  /** Bytes to read: at first n of them, then one more for each RcvPlus and one less for each RcvMinus. */
  function Arrived(n: int, acts: seq<Action>, k: nat): (r: int) {
    n + Count(acts, k, RcvPlus) - Count(acts, k, RcvMinus)
  }

  ghost predicate Ever(acts: seq<Action>, k: nat, e: Event) {
    exists i :: 0 <= i < |acts| && Happens(acts[i], k, e)
  }

  /** The last word of the run is that socket k can be written: a SendPlus with no later SendMinus, or neither of them. */
  ghost predicate Sendable(before: bool, acts: seq<Action>, k: nat) {
    || (exists i :: 0 <= i < |acts| && Happens(acts[i], k, SendPlus) && !Ever(acts[i + 1..], k, SendMinus))
    || (before && !Ever(acts, k, SendMinus))
  }

  predicate Reads(a: Action, k: nat) {
    a.Receive? && a.socket == k
  }

  /** A read from socket k left data, and it was the last one; or there was none and data was left before. */
  ghost predicate DataLeft(before: bool, acts: seq<Action>, k: nat) {
    || (exists i :: 0 <= i < |acts| && acts[i] == Receive(k, true) && forall j :: i < j < |acts| ==> !Reads(acts[j], k))
    || (before && forall j :: 0 <= j < |acts| ==> !Reads(acts[j], k))
  }

  // ----- the sockets

  /** A callback changes its socket as the event says, a read changes lastdata, and nothing else changes a socket. */
  lemma StepSockets(s: State, a: Action, k: nat)
    requires Enabled(s, a) && k < |s.socks|
    ensures var r := Step(s, a);
            && |r.socks| == |s.socks|
            && r.socks[k].rcvevent ==
               s.socks[k].rcvevent + (if Happens(a, k, RcvPlus) then 1 else 0) - (if Happens(a, k, RcvMinus) then 1 else 0)
            && (r.socks[k].sendevent <==> Happens(a, k, SendPlus) || (s.socks[k].sendevent && !Happens(a, k, SendMinus)))
            && (r.socks[k].errevent <==> Happens(a, k, Error) || s.socks[k].errevent)
            && (r.socks[k].lastdata <==> if Reads(a, k) then a.left else s.socks[k].lastdata)
  {
    match a {
      case Callback(c, j, e) =>
        VisitFrame(s.(socks := s.socks[j := Apply(s.socks[j], e)]), c, j, 0);
      case WalkOn(c) =>
        var w := s.walks[c];
        VisitFrame(s, c, w.socket, if w.ctr != s.ctr then 0 else Position(s.list, w.scb) + 1);
      case _ =>
    }
  }

  lemma EverNext(acts: seq<Action>, k: nat, e: Event)
    requires acts != []
    ensures Ever(acts, k, e) <==> Happens(acts[0], k, e) || Ever(acts[1..], k, e)
  {
    if Ever(acts[1..], k, e) {
      var i :| 0 <= i < |acts[1..]| && Happens(acts[1..][i], k, e);
      assert Happens(acts[i + 1], k, e);
    }
    if Ever(acts, k, e) && !Happens(acts[0], k, e) {
      var i :| 0 <= i < |acts| && Happens(acts[i], k, e);
      assert acts[1..][i - 1] == acts[i];
    }
  }

  lemma SendableNext(before: bool, acts: seq<Action>, k: nat)
    requires acts != []
    ensures Sendable(before, acts, k) <==>
            Sendable(Happens(acts[0], k, SendPlus) || (before && !Happens(acts[0], k, SendMinus)), acts[1..], k)
  {
    var now := Happens(acts[0], k, SendPlus) || (before && !Happens(acts[0], k, SendMinus));
    EverNext(acts, k, SendMinus);
    if Sendable(before, acts, k) && !(before && !Ever(acts, k, SendMinus)) {
      var i :| 0 <= i < |acts| && Happens(acts[i], k, SendPlus) && !Ever(acts[i + 1..], k, SendMinus);
      if i > 0 {
        assert acts[1..][i - 1] == acts[i] && acts[1..][i - 1 + 1..] == acts[i + 1..];
      }
    }
    if Sendable(now, acts[1..], k) {
      if now && !Ever(acts[1..], k, SendMinus) {
        if Happens(acts[0], k, SendPlus) {
          assert acts[0 + 1..] == acts[1..];
        }
      } else {
        var i :| 0 <= i < |acts[1..]| && Happens(acts[1..][i], k, SendPlus) && !Ever(acts[1..][i + 1..], k, SendMinus);
        assert acts[1..][i] == acts[i + 1] && acts[1..][i + 1..] == acts[i + 1 + 1..];
      }
    }
  }

  lemma DataLeftNext(before: bool, acts: seq<Action>, k: nat)
    requires acts != []
    ensures DataLeft(before, acts, k) <==> DataLeft(if Reads(acts[0], k) then acts[0].left else before, acts[1..], k)
  {
    var now := if Reads(acts[0], k) then acts[0].left else before;
    assert forall j :: 0 <= j < |acts[1..]| ==> acts[1..][j] == acts[j + 1];
    if DataLeft(before, acts, k) {
      if before && forall j :: 0 <= j < |acts| ==> !Reads(acts[j], k) {
        assert DataLeft(now, acts[1..], k);
      } else {
        var i :| 0 <= i < |acts| && acts[i] == Receive(k, true) && forall j :: i < j < |acts| ==> !Reads(acts[j], k);
        if i > 0 {
          assert acts[1..][i - 1] == acts[i];
        }
      }
    }
    if DataLeft(now, acts[1..], k) {
      if now && forall j :: 0 <= j < |acts[1..]| ==> !Reads(acts[1..][j], k) {
        forall j | 1 <= j < |acts|
          ensures !Reads(acts[j], k)
        {
          assert acts[j] == acts[1..][j - 1];
        }
        if Reads(acts[0], k) {
          assert acts[0] == Receive(k, true);
        }
      } else {
        var i :| 0 <= i < |acts[1..]| && acts[1..][i] == Receive(k, true) &&
                 forall j :: i < j < |acts[1..]| ==> !Reads(acts[1..][j], k);
        assert acts[i + 1] == Receive(k, true);
        forall j | i + 1 < j < |acts|
          ensures !Reads(acts[j], k)
        {
          assert acts[j] == acts[1..][j - 1];
        }
      }
    }
  }

  /**
   * Over every run the fields of a socket are what its callbacks and reads have made them: rcvevent counts the receive
   * events, sendevent and errevent tell the last send event and whether there was an error, and lastdata the last read.
   */
  lemma {:induction false} SocketHistory(s: State, acts: seq<Action>, k: nat)
    requires EnabledRun(s, acts) && k < |s.socks|
    ensures var r := After(s, acts);
            && |r.socks| == |s.socks|
            && r.socks[k].rcvevent == Arrived(s.socks[k].rcvevent, acts, k)
            && (r.socks[k].sendevent <==> Sendable(s.socks[k].sendevent, acts, k))
            && (r.socks[k].errevent <==> s.socks[k].errevent || Ever(acts, k, Error))
            && (r.socks[k].lastdata <==> DataLeft(s.socks[k].lastdata, acts, k))
    decreases |acts|
  {
    hide Step, Enabled, Sendable, Ever, DataLeft;
    if acts == [] {
      NothingHappened(s.socks[k], k);
    } else {
      StepSockets(s, acts[0], k);
      SocketHistory(Step(s, acts[0]), acts[1..], k);
      SendableNext(s.socks[k].sendevent, acts, k);
      EverNext(acts, k, Error);
      DataLeftNext(s.socks[k].lastdata, acts, k);
    }
  }

  lemma NothingHappened(so: Sock, k: nat)
    ensures !Ever([], k, Error)
    ensures (Sendable(so.sendevent, [], k) <==> so.sendevent) && (DataLeft(so.lastdata, [], k) <==> so.lastdata)
  {
  }

  // ----- the threads

  predicate Enters(a: Action, t: nat) {
    a.Enter? && a.t == t
  }

  /** The sets, the number of sockets and the time-out of thread t are those of the call. */
  predicate Called(th: Thread, a: Action)
    requires a.Enter?
  {
    th.rd == a.rd && th.wr == a.wr && th.ex == a.ex && th.max == a.max && th.poll == a.poll
  }

  predicate SameCall(th: Thread, th': Thread) {
    th'.rd == th.rd && th'.wr == th.wr && th'.ex == th.ex && th'.max == th.max && th'.poll == th.poll
  }

  /** A callback, or a step of its walk, does no more to a thread than signal it. */
  lemma WalkThreads(s: State, a: Action, t: nat)
    requires Enabled(s, a) && (a.Callback? || a.WalkOn?) && t < |s.threads|
    ensures var r := Step(s, a);
            |r.threads| == |s.threads| && (r.threads[t] == s.threads[t] || r.threads[t] == s.threads[t].(signalled := true))
  {
    hide VisitAt;
    match a {
      case Callback(c, j, e) => VisitFrame(s.(socks := s.socks[j := Apply(s.socks[j], e)]), c, j, 0);
      case WalkOn(c) =>
        var w := s.walks[c];
        VisitFrame(s, c, w.socket, if w.ctr != s.ctr then 0 else Position(s.list, w.scb) + 1);
    }
  }

  lemma AdjustFrame(s: State, th: Thread, i: nat)
    ensures Adjust(s, th, i, 1) == s.(waiting := Adjust(s, th, i, 1).waiting)
    ensures Adjust(s, th, i, -1) == s.(waiting := Adjust(s, th, i, -1).waiting)
  {
  }

  lemma StepThreads(s: State, a: Action, t: nat)
    requires Enabled(s, a) && t < |s.threads|
    ensures var r := Step(s, a);
            |r.threads| == |s.threads| && if Enters(a, t) then Called(r.threads[t], a) else SameCall(s.threads[t], r.threads[t])
  {
    hide VisitAt, ReadyNow, Adjust, Without;
    if a.Callback? || a.WalkOn? {
      WalkThreads(s, a, t);
    }
    if a.Go? {
      var th := s.threads[a.t];
      AdjustFrame(s, th, if th.pc.Raise? || th.pc.Lower? then th.pc.i else 0);
    }
  }

  lemma {:induction false} NoNewCall(s: State, acts: seq<Action>, t: nat)
    requires EnabledRun(s, acts) && t < |s.threads| && forall j :: 0 <= j < |acts| ==> !Enters(acts[j], t)
    ensures var r := After(s, acts); |r.threads| == |s.threads| && SameCall(s.threads[t], r.threads[t])
    decreases |acts|
  {
    hide Step, Enabled;
    if acts != [] {
      assert !Enters(acts[0], t);
      StepThreads(s, acts[0], t);
      NoNewCall(Step(s, acts[0]), acts[1..], t);
    }
  }

  /** What a thread works with is what it passed to its last call of lwip_select. */
  lemma {:induction false} CallHistory(s: State, acts: seq<Action>, t: nat, i: nat)
    requires EnabledRun(s, acts) && t < |s.threads| && i < |acts| && Enters(acts[i], t)
    requires forall j :: i < j < |acts| ==> !Enters(acts[j], t)
    ensures var r := After(s, acts); |r.threads| == |s.threads| && Called(r.threads[t], acts[i])
    decreases i
  {
    hide Step, Enabled;
    StepThreads(s, acts[0], t);
    if i == 0 {
      assert forall j :: 0 <= j < |acts[1..]| ==> acts[1..][j] == acts[j + 1];
      NoNewCall(Step(s, acts[0]), acts[1..], t);
    } else {
      assert acts[1..][i - 1] == acts[i];
      CallHistory(Step(s, acts[0]), acts[1..], t, i - 1);
    }
  }

  /** A call with a zero time-out never gets past its first scan. */
  predicate Polite(th: Thread) {
    th.poll ==> th.pc.Outside? || th.pc.Scan1?
  }

  lemma {:induction false} PollNeverWaits(s: State, acts: seq<Action>, t: nat)
    requires EnabledRun(s, acts) && t < |s.threads| && Polite(s.threads[t])
    ensures var r := After(s, acts); |r.threads| == |s.threads| && Polite(r.threads[t])
    decreases |acts|
  {
    hide Step, Enabled;
    if acts != [] {
      StepPolite(s, acts[0], t);
      PollNeverWaits(Step(s, acts[0]), acts[1..], t);
    }
  }

  lemma StepPolite(s: State, a: Action, t: nat)
    requires Enabled(s, a) && t < |s.threads| && Polite(s.threads[t])
    ensures |Step(s, a).threads| == |s.threads| && Polite(Step(s, a).threads[t])
  {
    hide VisitAt, ReadyNow, Adjust, Without;
    if a.Callback? || a.WalkOn? {
      WalkThreads(s, a, t);
    }
    if a.Go? {
      var th := s.threads[a.t];
      AdjustFrame(s, th, if th.pc.Raise? || th.pc.Lower? then th.pc.i else 0);
    }
  }

  /** What a call waits for has happened on socket k, by the callbacks of the run. */
  ghost predicate Due(a: Action, so: Sock, acts: seq<Action>, k: nat)
    requires a.Enter?
  {
    k < a.max && (
      || (k in a.rd && Arrived(so.rcvevent, acts, k) > 0)
      || (k in a.wr && Sendable(so.sendevent, acts, k))
      || (k in a.ex && (so.errevent || Ever(acts, k, Error))))
  }

  /**
   * No wake-up is lost, by the calls and callbacks of any run: a thread that sleeps in its last call, unsignalled, while
   * what the call asked for has happened on a socket, will still be reached by a callback's walk for that socket. Its
   * call has no zero time-out.
   */
  lemma EventsWake(s: State, acts: seq<Action>, t: nat, i: nat, k: nat)
    requires Initial(s) && EnabledRun(s, acts) && t < |s.threads| && k < |s.socks|
    requires i < |acts| && Enters(acts[i], t) && forall j :: i < j < |acts| ==> !Enters(acts[j], t)
    requires var r := After(s, acts); t < |r.threads| && r.threads[t].pc == Blocked && !r.threads[t].signalled
    ensures Due(acts[i], s.socks[k], acts, k) ==> Covered(After(s, acts), t, k) && After(s, acts).walks != map[]
    ensures !acts[i].poll
  {
    hide Covered, Initial;
    CallHistory(s, acts, t, i);
    SocketHistory(s, acts, k);
    assert Polite(s.threads[t]) by { StartsOutside(s, t); }
    PollNeverWaits(s, acts, t);
    if Due(acts[i], s.socks[k], acts, k) {
      NoLostWakeUps(s, acts, t, k);
    }
  }

  lemma StartsOutside(s: State, t: nat)
    requires Initial(s) && t < |s.threads|
    ensures s.threads[t].pc == Outside
  {
  }

  // ----- data left from an earlier read

  /** The call of th has seen socket k in the scan before it waits. */
  predicate Passed(th: Thread, k: nat) {
    k < th.max && (th.pc.Blocked? || (th.pc.Scan2? && !th.pc.ready && k < th.pc.i))
  }

  /** No thread goes to sleep for reading while data is left: it could be there only if a later read has left it. */
  lemma {:induction false} DataKeepsAwake(s: State, acts: seq<Action>, t: nat, k: nat)
    requires EnabledRun(s, acts) && t < |s.threads| && k < |s.socks|
    requires Passed(s.threads[t], k) && k in s.threads[t].rd ==> !s.socks[k].lastdata
    requires forall j :: 0 <= j < |acts| ==> acts[j] != Receive(k, true)
    ensures var r := After(s, acts);
            && |r.threads| == |s.threads| && |r.socks| == |s.socks|
            && (Passed(r.threads[t], k) && k in r.threads[t].rd ==> !r.socks[k].lastdata)
    decreases |acts|
  {
    hide Step, Enabled;
    if acts != [] {
      assert acts[0] != Receive(k, true);
      StepAwake(s, acts[0], t, k);
      DataKeepsAwake(Step(s, acts[0]), acts[1..], t, k);
    }
  }

  lemma StepAwake(s: State, a: Action, t: nat, k: nat)
    requires Enabled(s, a) && t < |s.threads| && k < |s.socks| && a != Receive(k, true)
    requires Passed(s.threads[t], k) && k in s.threads[t].rd ==> !s.socks[k].lastdata
    ensures var r := Step(s, a);
            && |r.threads| == |s.threads| && |r.socks| == |s.socks|
            && (Passed(r.threads[t], k) && k in r.threads[t].rd ==> !r.socks[k].lastdata)
  {
    hide VisitAt, ReadyNow, Adjust;
    StepSockets(s, a, k);
    if a.Callback? || a.WalkOn? {
      WalkThreads(s, a, t);
    }
    if a.Go? {
      var th := s.threads[a.t];
      AdjustFrame(s, th, if th.pc.Raise? || th.pc.Lower? then th.pc.i else 0);
      if a.t == t {
        AwakeGo(s, t, k);
      }
    }
  }

  lemma AwakeGo(s: State, t: nat, k: nat)
    requires t < |s.threads| && k < |s.socks|
    requires Passed(s.threads[t], k) && k in s.threads[t].rd ==> !s.socks[k].lastdata
    ensures var r := Advance(s, t);
            && |r.threads| == |s.threads| && |r.socks| == |s.socks|
            && (Passed(r.threads[t], k) && k in r.threads[t].rd ==> !r.socks[k].lastdata)
  {
    hide Adjust, Wanted, Without;
    AdjustFrame(s, s.threads[t], if s.threads[t].pc.Raise? || s.threads[t].pc.Lower? then s.threads[t].pc.i else 0);
  }

  // ----- one call alone

  /** Thread t takes n steps, and nothing else happens. */
  function Alone(s: State, t: nat, n: nat): (r: State)
    requires t < |s.threads|
    ensures |r.threads| == |s.threads|
    decreases n
  {
    if n == 0 then s else Alone(GoOn(s, t), t, n - 1)
  }

  function GoOn(s: State, t: nat): (r: State)
    requires t < |s.threads|
    ensures |r.threads| == |s.threads|
  {
    Step(s, Go(t))
  }

  lemma {:induction false} AloneTwice(s: State, t: nat, m: nat, n: nat)
    requires t < |s.threads|
    ensures Alone(s, t, m + n) == Alone(Alone(s, t, m), t, n)
    decreases m
  {
    if m > 0 {
      AloneTwice(GoOn(s, t), t, m - 1, n);
    }
  }

  /** Socket k lets a call return: data to read, or left from an earlier read, room to write, or an error. */
  predicate Ready(th: Thread, k: nat, so: Sock) {
    || (k in th.rd && (so.rcvevent > 0 || so.lastdata))
    || (k in th.wr && so.sendevent)
    || (k in th.ex && so.errevent)
  }

  predicate SomeReady(s: State, th: Thread, i: nat) {
    exists k :: i <= k < th.max && k < |s.socks| && Ready(th, k, s.socks[k])
  }

  lemma SomeReadyNext(s: State, th: Thread, i: nat)
    requires i < th.max <= |s.socks|
    ensures SomeReady(s, th, i) <==> Ready(th, i, s.socks[i]) || SomeReady(s, th, i + 1)
  {
  }

  lemma {:induction false} FirstScan(s: State, t: nat)
    requires t < |s.threads| && s.threads[t].pc.Scan1? && s.threads[t].pc.i <= s.threads[t].max <= |s.socks|
    ensures var th := s.threads[t];
            Alone(s, t, th.max - th.pc.i + 1) ==
            WithPc(s, t, if th.pc.ready || SomeReady(s, th, th.pc.i) || th.poll then Outside else Link)
    decreases s.threads[t].max - s.threads[t].pc.i
  {
    hide SomeReady;
    var th := s.threads[t];
    if th.pc.i < th.max {
      SomeReadyNext(s, th, th.pc.i);
      var s1 := GoOn(s, t);
      SameReady(s, s1, th, s1.threads[t], th.pc.i + 1);
      FirstScan(s1, t);
    } else {
      assert Alone(GoOn(s, t), t, 0) == GoOn(s, t);
      assert !SomeReady(s, th, th.pc.i) by { NoneLeft(s, th, th.pc.i); }
    }
  }

  lemma SameReady(s: State, s1: State, th: Thread, th1: Thread, i: nat)
    requires s1.socks == s.socks && SameCall(th, th1)
    ensures SomeReady(s1, th1, i) == SomeReady(s, th, i)
  {
    assert forall k :: 0 <= k < |s.socks| ==> Ready(th1, k, s.socks[k]) == Ready(th, k, s.socks[k]);
  }

  lemma NoneLeft(s: State, th: Thread, i: nat)
    requires i >= th.max
    ensures !SomeReady(s, th, i)
  {
  }

  /** The select_waiting counters of the sockets from i on that th watches, changed by d. */
  function Bumped(waiting: seq<int>, th: Thread, i: nat, d: int): (r: seq<int>) {
    seq(|waiting|, k requires 0 <= k < |waiting| => waiting[k] + if i <= k && Watches(th, k) then d else 0)
  }

  lemma BumpedNext(s: State, th: Thread, i: nat, d: int)
    requires i < th.max <= |s.waiting|
    ensures Bumped(Adjust(s, th, i, d).waiting, th, i + 1, d) == Bumped(s.waiting, th, i, d)
  {
  }

  lemma SameBumped(waiting: seq<int>, th: Thread, th': Thread, i: nat, d: int)
    requires SameCall(th, th')
    ensures Bumped(waiting, th', i, d) == Bumped(waiting, th, i, d)
  {
    assert forall k :: Watches(th', k) == Watches(th, k);
  }

  lemma BumpedNone(waiting: seq<int>, th: Thread, i: nat, d: int)
    requires i >= th.max
    ensures Bumped(waiting, th, i, d) == waiting
  {
  }

  lemma {:induction false} RaisesAll(s: State, t: nat)
    requires t < |s.threads| && s.threads[t].pc.Raise? && s.threads[t].pc.i <= s.threads[t].max <= |s.waiting|
    ensures var th := s.threads[t];
            Alone(s, t, th.max - th.pc.i + 1) ==
            WithPc(s, t, Scan2(0, false)).(waiting := Bumped(s.waiting, th, th.pc.i, 1))
    decreases s.threads[t].max - s.threads[t].pc.i
  {
    hide Bumped, Adjust, Watches;
    var th, s1 := s.threads[t], GoOn(s, t);
    AdjustFrame(s, th, th.pc.i);
    AdjustLength(s, th, th.pc.i);
    if th.pc.i < th.max {
      BumpedNext(s, th, th.pc.i, 1);
      SameBumped(s1.waiting, th, s1.threads[t], th.pc.i + 1, 1);
      RaisesAll(s1, t);
    } else {
      BumpedNone(s.waiting, th, th.pc.i, 1);
      assert Alone(s1, t, 0) == s1;
    }
  }

  lemma AdjustLength(s: State, th: Thread, i: nat)
    ensures |Adjust(s, th, i, 1).waiting| == |s.waiting| && |Adjust(s, th, i, -1).waiting| == |s.waiting|
  {
  }

  lemma {:induction false} LowersAll(s: State, t: nat)
    requires t < |s.threads| && s.threads[t].pc.Lower? && s.threads[t].pc.i <= s.threads[t].max <= |s.waiting|
    ensures var th := s.threads[t];
            Alone(s, t, th.max - th.pc.i + 1) ==
            WithPc(s, t, Unlink).(waiting := Bumped(s.waiting, th, th.pc.i, -1))
    decreases s.threads[t].max - s.threads[t].pc.i
  {
    hide Bumped, Adjust, Watches;
    var th, s1 := s.threads[t], GoOn(s, t);
    AdjustFrame(s, th, th.pc.i);
    AdjustLength(s, th, th.pc.i);
    if th.pc.i < th.max {
      BumpedNext(s, th, th.pc.i, -1);
      SameBumped(s1.waiting, th, s1.threads[t], th.pc.i + 1, -1);
      LowersAll(s1, t);
    } else {
      BumpedNone(s.waiting, th, th.pc.i, -1);
      assert Alone(s1, t, 0) == s1;
    }
  }

  lemma {:induction false} SecondScan(s: State, t: nat)
    requires t < |s.threads| && s.threads[t].pc.Scan2? && s.threads[t].pc.i <= s.threads[t].max <= |s.socks|
    ensures var th := s.threads[t];
            Alone(s, t, th.max - th.pc.i + 1) ==
            WithPc(s, t, if th.pc.ready || SomeReady(s, th, th.pc.i) then Lower(0) else Blocked)
    decreases s.threads[t].max - s.threads[t].pc.i
  {
    hide SomeReady;
    var th, s1 := s.threads[t], GoOn(s, t);
    if th.pc.i < th.max {
      SomeReadyNext(s, th, th.pc.i);
      SameReady(s, s1, th, s1.threads[t], th.pc.i + 1);
      SecondScan(s1, t);
    } else {
      assert Alone(s1, t, 0) == s1;
      assert !SomeReady(s, th, th.pc.i) by { NoneLeft(s, th, th.pc.i); }
    }
  }

  /** A call with nothing ready in its first scan links its entry, raises its counters, scans again, and sleeps or goes on. */
  lemma LinksAlone(s: State, t: nat)
    requires t < |s.threads| && s.threads[t].pc.Link? && s.threads[t].max <= |s.socks| == |s.waiting|
    ensures var th := s.threads[t];
            Alone(s, t, 2 * th.max + 3) ==
            WithThread(s, t, th.(pc := if SomeReady(s, th, 0) then Lower(0) else Blocked, signalled := false))
              .(list := [t] + s.list, ctr := s.ctr + 1, waiting := Bumped(s.waiting, th, 0, 1))
  {
    hide SomeReady, Bumped, GoOn, Alone;
    var th, s1 := s.threads[t], GoOn(s, t);
    LinkStep(s, t);
    var s2 := Alone(s1, t, th.max + 1);
    RaisesAll(s1, t);
    SameBumped(s.waiting, th, s1.threads[t], 0, 1);
    SecondScan(s2, t);
    SameReady(s, s2, th, s2.threads[t], 0);
    AloneTwice(s1, t, th.max + 1, th.max + 1);
    OneStep(s, t, 2 * th.max + 2);
  }

  lemma OneStep(s: State, t: nat, n: nat)
    requires t < |s.threads|
    ensures Alone(s, t, n + 1) == Alone(GoOn(s, t), t, n) && Alone(s, t, 0) == s
  {
  }

  lemma LinkStep(s: State, t: nat)
    requires t < |s.threads| && s.threads[t].pc.Link?
    ensures GoOn(s, t) ==
            WithThread(s, t, s.threads[t].(pc := Raise(0), signalled := false)).(list := [t] + s.list, ctr := s.ctr + 1)
  {
  }

  /** From the end of its wait a call lowers its counters, unlinks its entry and returns. */
  lemma LeavesAlone(s: State, t: nat, before: seq<nat>, after: seq<nat>)
    requires t < |s.threads| && s.threads[t].pc == Lower(0) && s.threads[t].max <= |s.socks| == |s.waiting|
    requires s.list == before + [t] + after && t !in before
    ensures var th := s.threads[t];
            Alone(s, t, th.max + 2) ==
            WithPc(s, t, Outside).(list := before + after, ctr := s.ctr + 1, waiting := Bumped(s.waiting, th, 0, -1))
  {
    hide Bumped, GoOn, Alone;
    var th := s.threads[t];
    LowersAll(s, t);
    var s1 := Alone(s, t, th.max + 1);
    UnlinkStep(s1, t, before, after);
    AloneTwice(s, t, th.max + 1, 1);
    OneStep(s1, t, 0);
    OneStep(GoOn(s1, t), t, 0);
  }

  lemma UnlinkStep(s: State, t: nat, before: seq<nat>, after: seq<nat>)
    requires t < |s.threads| && s.threads[t].pc.Unlink? && s.list == before + [t] + after && t !in before
    ensures GoOn(s, t) == WithPc(s, t, Outside).(list := before + after, ctr := s.ctr + 1)
  {
    FoundAt(before, t, after);
  }

  lemma {:induction false} FoundAt(before: seq<nat>, t: nat, after: seq<nat>)
    requires t !in before
    ensures Position(before + [t] + after, t) == |before|
  {
    var list := before + [t] + after;
    if before != [] {
      assert list[0] == before[0] && list[1..] == before[1..] + [t] + after;
      FoundAt(before[1..], t, after);
    }
  }

  /** A sleeping call goes on when it is signalled, and only then. */
  lemma SignalWakes(s: State, t: nat)
    requires t < |s.threads| && s.threads[t].pc == Blocked
    ensures GoOn(s, t) == if s.threads[t].signalled then WithPc(s, t, Lower(0)) else s
  {
    assert s.threads[t := s.threads[t]] == s.threads;
  }

  /**
   * A call of lwip_select on its own: it returns after one scan if a socket is ready or its time-out is zero; otherwise
   * it ends up asleep at the head of the list, unsignalled, with the counters of its sockets raised.
   */
  lemma SelectAlone(s: State, a: Action)
    requires Inv(s) && Enabled(s, a) && a.Enter?
    ensures var t, s0 := a.t, Step(s, a);
            var th := s0.threads[t];
            && (SomeReady(s, th, 0) || a.poll ==> Alone(s0, t, a.max + 1) == WithPc(s0, t, Outside))
            && (!SomeReady(s, th, 0) && !a.poll ==>
                  Alone(s0, t, 3 * a.max + 4) ==
                  WithPc(s0, t, Blocked).(list := [t] + s.list, ctr := s.ctr + 1, waiting := Bumped(s.waiting, th, 0, 1)))
  {
    hide SomeReady, Bumped, Alone, ListOk, WalksOk, NoLostWakeUp;
    var t, s0 := a.t, Step(s, a);
    FirstScan(s0, t);
    SameReady(s, s0, s0.threads[t], s0.threads[t], 0);
    if !SomeReady(s, s0.threads[t], 0) && !a.poll {
      var s1 := Alone(s0, t, a.max + 1);
      SameReady(s, s1, s0.threads[t], s1.threads[t], 0);
      SameBumped(s.waiting, s0.threads[t], s1.threads[t], 0, 1);
      LinksAlone(s1, t);
      AloneTwice(s0, t, a.max + 1, 2 * a.max + 3);
    }
  }

  // ----- a walk alone

  /** Walk c takes up to n steps, and nothing else happens. */
  function Walking(s: State, c: nat, n: nat): (r: State)
    decreases n
  {
    if n == 0 || c !in s.walks then s else Walking(Step(s, WalkOn(c)), c, n - 1)
  }

  /** A walk that is not disturbed ends after the rest of the list, or the whole of it if the list has changed before. */
  lemma {:induction false} WalkEnds(s: State, c: nat)
    requires ListOk(s) && WalksOk(s) && c in s.walks
    ensures var w := s.walks[c];
            c !in Walking(s, c, if w.ctr != s.ctr then |s.list| + 1 else |s.list| - Position(s.list, w.scb)).walks
    decreases if s.walks[c].ctr != s.ctr then |s.list| + 1 else |s.list| - Position(s.list, s.walks[c].scb)
  {
    hide VisitAt;
    var w, s1 := s.walks[c], Step(s, WalkOn(c));
    var i := if w.ctr != s.ctr then 0 else Position(s.list, w.scb) + 1;
    VisitFrame(s, c, w.socket, i);
    NextEntry(s, c, w.socket, i);
    if i < |s.list| {
      PositionOf(s.list, i);
      VisitedList(s, c, w.socket, i);
      WalkEnds(s1, c);
    }
  }

  lemma NextEntry(s: State, c: nat, k: nat, i: nat)
    ensures var r := VisitAt(s, c, k, i);
            if i < |s.list| then c in r.walks && r.walks[c] == Walk(k, s.list[i], s.ctr) else c !in r.walks
  {
  }

  lemma VisitedList(s: State, c: nat, k: nat, i: nat)
    requires ListOk(s) && WalksOk(s)
    ensures ListOk(VisitAt(s, c, k, i)) && WalksOk(VisitAt(s, c, k, i))
  {
    hide Test;
    VisitFrame(s, c, k, i);
  }
}
