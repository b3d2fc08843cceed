/** Which result each write gets, and what of it goes out. */
module NetconnOutcomes {
  import opened NetconnProtocol

  /** So many bytes tcp_write is offered: what is left, if the send buffer and 16 bits allow. */
  function Least(left: nat, available: nat): (n: nat) {
    if left <= available && left <= 0xffff then left else if available <= 0xffff then available else 0xffff
  }

  /** The write may not wait, and would have to. */
  predicate Stuck(c: Conn, q: Request, offset: nat, a: Answer) {
    var left := if offset < |q.data| then |q.data| - offset else 0;
    (c.nonblocking || q.dontblock) && (Least(left, a.available) < |q.data| || a.result == ERR_MEM)
  }

  /**
   * A callback for a write in progress, with tcp_write's answer: it ends with ERR_WOULDBLOCK exactly if it is stuck, with
   * ERR_OK exactly if its last byte is taken, and with any error but ERR_MEM that tcp_write reports. Otherwise it goes on,
   * with the bytes that were offered sent if tcp_write has taken them.
   */
  lemma CallbackOutcome(c: Conn, a: Answer)
    requires Sound(c) && c.pcb && !c.broken && c.state == Writing
    ensures var d, i := Do(c, Sent(a)), c.current.value;
            var q := c.requests[i];
            var n := Least(|q.data| - c.offset, a.available);
            var taken := a.result == ERR_OK && !Stuck(c, q, c.offset, a);
            && |d.requests| == |c.requests| && Do(c, Poll(a)) == d && d.lastErr == c.lastErr && d.pcb
            && d.wire == c.wire + (if taken then q.data[c.offset..c.offset + n] else [])
            && d.requests[i].results ==
               (if Stuck(c, q, c.offset, a) then [ERR_WOULDBLOCK]
                else if a.result == ERR_OK then if c.offset + n == |q.data| then [ERR_OK] else []
                else if a.result == ERR_MEM then [] else [a.result])
            && (d.requests[i].results == [] <==> d.current == Some(i))
            && (d.current == Some(i) ==> d.offset == c.offset + if taken then n else 0)
  {
    hide Prefixes, Counted, InTime;
  }

  /**
   * A write that the tcpip thread meets is refused at once, with nothing sent, if the connection has failed (with that
   * error), if another write is in progress, or if there is no connection.
   */
  lemma RefusedAtOnce(c: Conn, a: Answer)
    requires Sound(c) && Enabled(c, Meet(a)) && (Fatal(c.lastErr) || c.state == Writing || !c.pcb)
    ensures var d, i := Do(c, Meet(a)), c.met;
            && |d.requests| == |c.requests| && d.met == c.met + 1 && d.wire == c.wire && d.lastErr == c.lastErr
            && d.current == c.current && d.state == c.state && d.offset == c.offset
            && d.requests[i].results == [if Fatal(c.lastErr) then c.lastErr
                                         else if c.state == Writing then ERR_INPROGRESS else ERR_CONN]
            && forall k :: 0 <= k < |c.requests| && k != i ==> d.requests[k] == c.requests[k]
  {
    hide Prefixes, Counted, InTime;
  }

  /** Any other write starts with its first byte, and fares like one that goes on. */
  lemma StartOutcome(c: Conn, a: Answer)
    requires Sound(c) && Enabled(c, Meet(a)) && !Fatal(c.lastErr) && c.state == Idle && c.pcb
    ensures var d, i := Do(c, Meet(a)), c.met;
            var q := c.requests[i];
            var n := Least(|q.data|, a.available);
            var taken := a.result == ERR_OK && !Stuck(c, q, 0, a);
            && |d.requests| == |c.requests| && d.met == c.met + 1 && d.lastErr == c.lastErr
            && d.wire == c.wire + (if taken then q.data[..n] else [])
            && d.requests[i].results ==
               (if Stuck(c, q, 0, a) then [ERR_WOULDBLOCK]
                else if a.result == ERR_OK then if n == |q.data| then [ERR_OK] else []
                else if a.result == ERR_MEM then [] else [a.result])
            && (d.requests[i].results == [] <==> d.current == Some(i))
            && (d.current == Some(i) ==> d.offset == if taken then n else 0)
  {
    hide Prefixes, Counted, InTime;
  }

  /** The error that a caller takes home is remembered, unless a fatal one is already. */
  lemma ReturnRemembers(c: Conn, i: nat)
    requires Sound(c) && Enabled(c, Return(i)) && Over(c.requests[i])
    ensures var d := Do(c, Return(i));
            d.lastErr == (if c.lastErr < ERR_ISCONN then c.lastErr else c.requests[i].results[0]) && d.requests == c.requests
  {
    hide Prefixes;
  }

  /** No connection error arrives. */
  predicate NoError(run: seq<Step>) {
    forall k :: 0 <= k < |run| ==> !run[k].Error?
  }

  /**
   * After a fatal error the connection takes nothing more: until another connection error the error stays, no byte goes
   * out, and every write is refused with it.
   */
  lemma {:induction false} FatalRefuses(c: Conn, run: seq<Step>)
    requires Sound(c) && Possible(c, run) && Fatal(c.lastErr) && c.state == Idle && NoError(run)
    ensures var d := After(c, run);
            && d.lastErr == c.lastErr && d.wire == c.wire && c.met <= d.met <= |d.requests|
            && forall k :: c.met <= k < d.met ==> d.requests[k].results == [c.lastErr]
    decreases |run|
  {
    hide Sound, Do, Enabled;
    if run == [] {
      MetFits(c);
    } else {
      assert !run[0].Error?;
      assert NoError(run[1..]) by { assert forall k :: 0 <= k < |run[1..]| ==> run[1..][k] == run[k + 1]; }
      var c1 := Do(c, run[0]);
      FatalStep(c, run[0]);
      StepKeeps(c, run[0]);
      FatalRefuses(c1, run[1..]);
      if run[0].Meet? {
        AcknowledgedOnce(c1, run[1..], c.met);
      }
    }
  }

  lemma MetFits(c: Conn)
    requires Sound(c)
    ensures c.met <= |c.requests|
  {
  }

  lemma FatalStep(c: Conn, s: Step)
    requires Sound(c) && Enabled(c, s) && Fatal(c.lastErr) && c.state == Idle && !s.Error?
    ensures var d := Do(c, s);
            && d.lastErr == c.lastErr && d.wire == c.wire && d.state == Idle
            && (s.Meet? ==> d.met == c.met + 1 && c.met < |d.requests| && d.requests[c.met].results == [c.lastErr])
            && (!s.Meet? ==> d.met == c.met)
  {
    hide Prefixes, Counted, InTime;
  }
}
