/**
 * Blocking writes on a TCP netconn: what the tcpip thread does with a write request and with the callbacks of
 * its TCP connection. The TCP layer is an environment: an Answer says how much room tcp_sndbuf reports and what
 * tcp_write returns when it is called.
 */
module NetconnProtocol {

  datatype Option<T> = None | Some(value: T)

  /** err_t */
  type Err = int
  const ERR_OK: Err := 0
  const ERR_MEM: Err := -1
  const ERR_INPROGRESS: Err := -5
  const ERR_WOULDBLOCK: Err := -7
  const ERR_ISCONN: Err := -9
  const ERR_CONN: Err := -13

  const MAX_U16: nat := 0xffff

  predicate Fatal(e: Err) {
    e < ERR_ISCONN
  }

  /** NETCONN_NONE and NETCONN_WRITE */
  datatype State = Idle | Writing

  /**
   * A write request: the user's buffer, what has been reported back for it (one element for each time the
   * request was acknowledged), and how many of its bytes tcp_write has taken.
   */
  datatype Request = Request(data: seq<bv8>, dontblock: bool, results: seq<Err>, taken: nat)

  /**
   * The netconn. requests holds all requests in the order in which they were posted to the tcpip thread, which
   * takes them from its mailbox in that order and has met the first met of them; current is the one being
   * written, completed counts op_completed, returned the requests whose callers have woken up, and wire is
   * everything that tcp_write has taken. A request is a variable of netconn_write's, so a caller that returns
   * before its request is over leaves a pointer to nothing behind: broken, and nothing more is said.
   */
  datatype Conn = Conn(
    state: State, current: Option<nat>, offset: nat, lastErr: Err, pcb: bool, nonblocking: bool,
    requests: seq<Request>, met: nat, completed: nat, returned: set<nat>, wire: seq<bv8>, broken: bool)

  /** What tcp_sndbuf and tcp_write answer. */
  datatype Answer = Answer(available: nat, result: Err)

  datatype Step =
    | Post(data: seq<bv8>, dontblock: bool)
    | Meet(answer: Answer)
    | Sent(answer: Answer)
    | Poll(answer: Answer)
    | Error(err: Err)
    | Return(request: nat)
    | SetNonblocking(on: bool)

  /** How much is offered to tcp_write: what remains, as far as 16 bits and the send buffer allow. */
  function Chunk(remaining: nat, available: nat): (len: nat)
    ensures len <= remaining && len <= available && len <= MAX_U16
    ensures len == remaining || len == available || len == MAX_U16
  {
    var len := if remaining > MAX_U16 then MAX_U16 else remaining;
    if available < len then available else len
  }

  /** A request is acknowledged: its error is set and op_completed is signalled. */
  function Acknowledge(c: Conn, i: nat, err: Err): (r: Conn)
    requires i < |c.requests|
  {
    c.(requests := c.requests[i := c.requests[i].(results := c.requests[i].results + [err])], completed := c.completed + 1)
  }

  /** The current request is over. */
  function Finish(c: Conn, err: Err): (r: Conn)
    requires c.current.Some? && c.current.value < |c.requests|
  {
    Acknowledge(c, c.current.value, err).(current := None, state := Idle)
  }

  /** tcp_write takes the next len bytes of the current request. */
  function Take(c: Conn, len: nat): (r: Conn)
    requires c.current.Some? && c.current.value < |c.requests|
    requires c.offset + len <= |c.requests[c.current.value].data|
  {
    var q := c.requests[c.current.value];
    c.(offset := c.offset + len, wire := c.wire + q.data[c.offset..c.offset + len],
       requests := c.requests[c.current.value := q.(taken := q.taken + len)])
  }

  /** A request is being written. */
  ghost predicate InProgress(c: Conn) {
    && c.state == Writing && c.current.Some? && c.current.value < |c.requests|
    && c.offset < |c.requests[c.current.value].data|
  }

  /** do_writemore */
  function WriteMore(c: Conn, a: Answer): (r: Conn)
    requires InProgress(c)
  {
    var q := c.requests[c.current.value];
    var len := Chunk(|q.data| - c.offset, a.available);
    var dontblock := c.nonblocking || q.dontblock;
    var refused := dontblock && (len < |q.data| || a.result == ERR_MEM);
    if refused then Finish(c, ERR_WOULDBLOCK)
    else if a.result == ERR_OK then
      if c.offset + len == |q.data| then Finish(Take(c, len), ERR_OK).(offset := 0) else Take(c, len)
    else if a.result == ERR_MEM then c
    else Finish(c, a.result)
  }

  /** do_write, for the oldest request in the mailbox. */
  function StartWrite(c: Conn, a: Answer): (r: Conn)
    requires c.met < |c.requests| && |c.requests[c.met].data| > 0
  {
    var i, c1 := c.met, c.(met := c.met + 1);
    if Fatal(c.lastErr) then Acknowledge(c1, i, c.lastErr)
    else if c.state != Idle then Acknowledge(c1, i, ERR_INPROGRESS)
    else if c.pcb then WriteMore(Started(c), a)
    else Acknowledge(c1, i, ERR_CONN)
  }

  /** The oldest request in the mailbox becomes the current one. */
  function Started(c: Conn): (r: Conn) {
    c.(met := c.met + 1, state := Writing, current := Some(c.met), offset := 0)
  }

  /** err_tcp: the connection is gone. */
  function Fail(c: Conn, err: Err): (r: Conn)
    requires c.state == Writing ==> c.current.Some? && c.current.value < |c.requests|
  {
    var c1 := c.(pcb := false, lastErr := err);
    if c.state == Writing then Finish(c1, err) else c1
  }

  /**
   * What can happen: TCP calls back only while there is a connection, and reports its end with a fatal error;
   * a caller returns when it can take op_completed, whoever that was signalled for, and from the moment on at
   * which it has posted its message.
   */
  ghost predicate Enabled(c: Conn, s: Step) {
    !c.broken && match s
    case Post(_, _) => true
    case Meet(_) => c.met < |c.requests|
    case Sent(_) => c.pcb
    case Poll(_) => c.pcb
    case Error(e) => c.pcb && Fatal(e)
    case Return(i) => i < |c.requests| && i !in c.returned && c.completed > 0
    case SetNonblocking(_) => true
  }

  /** NETCONN_SET_SAFE_ERR */
  function SafeErr(last: Err, e: Err): (r: Err) {
    if Fatal(last) then last else e
  }

  /** One step. netconn_write does not pass on an empty request. */
  function Do(c: Conn, s: Step): (r: Conn)
    requires Sound(c) && Enabled(c, s)
  {
    match s
    case Post(data, dontblock) =>
      if data == [] then c else c.(requests := c.requests + [Request(data, dontblock, [], 0)])
    case Meet(a) => StartWrite(c, a)
    case Sent(a) => if c.state == Writing then WriteMore(c, a) else c
    case Poll(a) => if c.state == Writing then WriteMore(c, a) else c
    case Error(e) => Fail(c, e)
    case Return(i) =>
      var q := c.requests[i];
      var c1 := c.(completed := c.completed - 1, returned := c.returned + {i});
      if q.results == [] then c1.(broken := true) else c1.(lastErr := SafeErr(c.lastErr, q.results[0]))
    case SetNonblocking(on) => c.(nonblocking := on)
  }

  /** The prefixes of the buffers that tcp_write has taken, one after the other. */
  function Prefixes(qs: seq<Request>): (w: seq<bv8>)
    requires forall i :: 0 <= i < |qs| ==> qs[i].taken <= |qs[i].data|
  {
    if qs == [] then [] else Prefixes(qs[..|qs| - 1]) + qs[|qs| - 1].data[..qs[|qs| - 1].taken]
  }

  /** A request that is over: acknowledged once, with ERR_OK exactly when all of it was taken. */
  ghost predicate Over(q: Request) {
    |q.results| == 1 && (q.results[0] == ERR_OK <==> q.taken == |q.data|)
  }

  ghost predicate Bounded(qs: seq<Request>) {
    forall i :: 0 <= i < |qs| ==> qs[i].taken <= |qs[i].data| && |qs[i].data| > 0
  }

  /**
   * Of the requests that were met all but the current one are over; the current one is unacknowledged, no later
   * one has been given to TCP, and nothing has happened to those in the mailbox.
   */
  ghost predicate Settled(c: Conn) {
    && c.met <= |c.requests|
    && (forall i :: 0 <= i < c.met && c.current != Some(i) ==> Over(c.requests[i]))
    && (forall i :: c.met <= i < |c.requests| ==> c.requests[i].results == [] && c.requests[i].taken == 0)
    && (c.current.Some? ==>
          && c.current.value < c.met
          && c.requests[c.current.value].results == [] && c.requests[c.current.value].taken == c.offset
          && forall i :: c.current.value < i < |c.requests| ==> c.requests[i].taken == 0)
  }

  /** Who has returned has done so with a request that was over. */
  ghost predicate InTime(c: Conn) {
    !c.broken ==> forall i :: i in c.returned ==> i < c.met && c.current != Some(i)
  }

  /** Every acknowledgement is in op_completed or has woken a caller. */
  ghost predicate Counted(c: Conn) {
    && (forall i :: i in c.returned ==> i < |c.requests|)
    && c.completed + |c.returned| + (if c.current.Some? then 1 else 0) == c.met
  }

  ghost predicate Sound(c: Conn) {
    && (c.state == Writing <==> c.current.Some?)
    && (c.current.Some? ==> c.pcb && InProgress(c))
    && Bounded(c.requests) && Settled(c) && Counted(c) && InTime(c)
    && c.wire == Prefixes(c.requests)
  }

  function Fresh(nonblocking: bool): (c: Conn) {
    Conn(Idle, None, 0, ERR_OK, true, nonblocking, [], 0, 0, {}, [], false)
  }

  lemma AckLeaves(c: Conn, i: nat, err: Err)
    requires i < |c.requests|
    ensures Acknowledge(c, i, err).current == c.current && |Acknowledge(c, i, err).requests| == |c.requests|
  {
  }

  lemma FreshSound(nonblocking: bool)
    ensures Sound(Fresh(nonblocking))
  {
  }

  // ----- what each step keeps

  lemma {:induction false} PrefixesUpdate(qs: seq<Request>, i: nat, q: Request)
    requires Bounded(qs) && i < |qs| && q.data == qs[i].data && qs[i].taken <= q.taken <= |q.data|
    requires forall k :: i < k < |qs| ==> qs[k].taken == 0
    ensures Bounded(qs[i := q])
    ensures Prefixes(qs[i := q]) == Prefixes(qs) + q.data[qs[i].taken..q.taken]
  {
    var n := |qs| - 1;
    StillBounded(qs, i, q);
    if i == n {
      LastUpdate(qs, q);
    } else {
      hide Bounded;
      assert qs[i := q][..n] == qs[..n][i := q] && qs[i := q][n] == qs[n];
      FrontBounded(qs);
      PrefixesUpdate(qs[..n], i, q);
      assert qs[n].data[..qs[n].taken] == [];
    }
  }

  lemma StillBounded(qs: seq<Request>, i: nat, q: Request)
    requires Bounded(qs) && i < |qs| && q.data == qs[i].data && q.taken <= |q.data|
    ensures Bounded(qs[i := q])
  {
  }

  lemma FrontBounded(qs: seq<Request>)
    requires Bounded(qs) && qs != []
    ensures Bounded(qs[..|qs| - 1]) && qs[|qs| - 1].taken <= |qs[|qs| - 1].data|
  {
  }

  lemma LastUpdate(qs: seq<Request>, q: Request)
    requires Bounded(qs) && qs != [] && Bounded(qs[|qs| - 1 := q])
    requires q.data == qs[|qs| - 1].data && qs[|qs| - 1].taken <= q.taken <= |q.data|
    ensures Prefixes(qs[|qs| - 1 := q]) == Prefixes(qs) + q.data[qs[|qs| - 1].taken..q.taken]
  {
    var n := |qs| - 1;
    assert qs[n := q][..n] == qs[..n];
    assert q.data[..q.taken] == q.data[..qs[n].taken] + q.data[qs[n].taken..q.taken];
  }

  lemma PrefixesAppend(qs: seq<Request>, q: Request)
    requires Bounded(qs) && q.taken == 0 && |q.data| > 0
    ensures Bounded(qs + [q]) && Prefixes(qs + [q]) == Prefixes(qs)
  {
    assert (qs + [q])[..|qs|] == qs;
  }

  /** An acknowledgement does not touch the data. */
  lemma AcknowledgeKeeps(c: Conn, i: nat, err: Err)
    requires i < |c.requests| && Bounded(c.requests)
    requires forall k :: i < k < |c.requests| ==> c.requests[k].taken == 0
    ensures var r := Acknowledge(c, i, err); Bounded(r.requests) && Prefixes(r.requests) == Prefixes(c.requests)
  {
    var q := c.requests[i].(results := c.requests[i].results + [err]);
    PrefixesUpdate(c.requests, i, q);
    assert q.data[c.requests[i].taken..q.taken] == [];
  }

  lemma FinishKeeps(c: Conn, err: Err)
    requires Sound(c) && c.current.Some? && err != ERR_OK
    ensures Sound(Finish(c, err))
  {
    hide Prefixes;
    AcknowledgeKeeps(c, c.current.value, err);
  }

  lemma TakeKeeps(c: Conn, len: nat)
    requires Sound(c) && c.current.Some? && c.offset + len <= |c.requests[c.current.value].data|
    ensures var r := Take(c, len);
            && Bounded(r.requests) && r.wire == Prefixes(r.requests) && Counted(r) && Settled(r) && InTime(r)
            && r.current == c.current && r.pcb && r.state == c.state && r.offset == c.offset + len
            && |r.requests| == |c.requests|
            && r.requests[c.current.value].data == c.requests[c.current.value].data
  {
    hide Prefixes;
    var i := c.current.value;
    var q := c.requests[i];
    PrefixesUpdate(c.requests, i, q.(taken := q.taken + len));
  }

  lemma TakeAllKeeps(c: Conn, len: nat)
    requires Sound(c) && c.current.Some? && c.offset + len == |c.requests[c.current.value].data|
    ensures Sound(Finish(Take(c, len), ERR_OK).(offset := 0))
  {
    hide Prefixes, Take, Sound;
    UnfoldSound(c);
    TakeKeeps(c, len);
    var d := Take(c, len);
    var i := c.current.value;
    assert d.requests[i].taken == |d.requests[i].data|;
    AcknowledgeKeeps(d, i, ERR_OK);
    FinishAll(d);
  }

  lemma UnfoldSound(c: Conn)
    requires Sound(c)
    ensures Settled(c) && Bounded(c.requests) && Counted(c) && InTime(c) && (c.current.Some? ==> c.state == Writing)
  {
  }

  lemma FinishAll(d: Conn)
    requires d.current.Some? && d.state == Writing && Bounded(d.requests) && Settled(d) && Counted(d) && InTime(d)
    requires d.wire == Prefixes(d.requests) == Prefixes(Acknowledge(d, d.current.value, ERR_OK).requests)
    requires Bounded(Acknowledge(d, d.current.value, ERR_OK).requests)
    requires d.requests[d.current.value].taken == |d.requests[d.current.value].data|
    ensures Sound(Finish(d, ERR_OK).(offset := 0))
  {
    hide Prefixes;
  }

  lemma WriteMoreKeeps(c: Conn, a: Answer)
    requires Sound(c) && c.state == Writing
    ensures Sound(WriteMore(c, a))
  {
    hide Finish, Take, Prefixes, Settled, Counted, Bounded;
    var q := c.requests[c.current.value];
    var len := Chunk(|q.data| - c.offset, a.available);
    if (c.nonblocking || q.dontblock) && (len < |q.data| || a.result == ERR_MEM) {
      FinishKeeps(c, ERR_WOULDBLOCK);
    } else if a.result == ERR_OK {
      if c.offset + len == |q.data| {
        TakeAllKeeps(c, len);
      } else {
        TakeKeeps(c, len);
      }
    } else if a.result != ERR_MEM {
      FinishKeeps(c, a.result);
    }
  }

  lemma RefusedKeeps(c: Conn, err: Err)
    requires Sound(c) && c.met < |c.requests| && err != ERR_OK
    ensures Sound(Acknowledge(c.(met := c.met + 1), c.met, err))
  {
    hide Prefixes;
    AcknowledgeKeeps(c, c.met, err);
  }

  lemma AcceptedKeeps(c: Conn)
    requires Sound(c) && c.met < |c.requests| && c.state == Idle && c.pcb
    ensures Sound(Started(c))
  {
    hide Prefixes;
  }

  lemma PostKeeps(c: Conn, q: Request)
    requires Sound(c) && q.results == [] && q.taken == 0 && |q.data| > 0
    ensures Sound(c.(requests := c.requests + [q]))
  {
    hide Prefixes;
    PrefixesAppend(c.requests, q);
  }

  lemma StartKeeps(c: Conn, a: Answer)
    requires Sound(c) && c.met < |c.requests|
    ensures |c.requests[c.met].data| > 0 && Sound(StartWrite(c, a))
  {
    hide Sound, WriteMore, Acknowledge, Started;
    UnfoldSound(c);
    if Fatal(c.lastErr) {
      RefusedKeeps(c, c.lastErr);
    } else if c.state != Idle {
      RefusedKeeps(c, ERR_INPROGRESS);
    } else if c.pcb {
      AcceptedKeeps(c);
      StartedWrites(c);
      WriteMoreKeeps(Started(c), a);
    } else {
      RefusedKeeps(c, ERR_CONN);
    }
  }

  lemma StartedWrites(c: Conn)
    requires Sound(c) && c.met < |c.requests|
    ensures InProgress(Started(c)) && Started(c).broken == c.broken && Started(c).completed == c.completed
    ensures Started(c).state == Writing
  {
    hide Prefixes, Settled, Counted;
  }

  lemma FailKeeps(c: Conn, e: Err)
    requires Sound(c) && Fatal(e)
    ensures Sound(Fail(c, e))
  {
    hide Prefixes;
    if c.state == Writing {
      FinishKeeps(c, e);
    }
  }

  lemma ReturnKeeps(c: Conn, i: nat)
    requires Sound(c) && Enabled(c, Return(i))
    ensures Sound(Do(c, Return(i)))
  {
    hide Prefixes, Bounded, Settled, Counted, InTime;
    var d := Do(c, Return(i));
    ReturnCounted(c, i);
    ReturnInTime(c, i);
    SameRequests(c, d);
  }

  lemma SameRequests(c: Conn, d: Conn)
    requires Settled(c) && d.requests == c.requests && d.met == c.met && d.current == c.current && d.offset == c.offset
    ensures Settled(d)
  {
  }

  lemma ReturnCounted(c: Conn, i: nat)
    requires Sound(c) && Enabled(c, Return(i))
    ensures Counted(Do(c, Return(i)))
  {
    hide Prefixes, Bounded, Settled, InTime;
    assert |c.returned + {i}| == |c.returned| + 1;
  }

  lemma ReturnInTime(c: Conn, i: nat)
    requires Sound(c) && Enabled(c, Return(i))
    ensures InTime(Do(c, Return(i)))
  {
    hide Prefixes, Bounded, Counted;
  }

  /**
   * Every step keeps this, for any number of callers, up to the first early return: what TCP
   * has taken is the concatenation of prefixes of the buffers, a request is acknowledged once, when it is
   * over, and with ERR_OK exactly when TCP has taken all of it.
   */
  lemma StepKeeps(c: Conn, s: Step)
    requires Sound(c) && Enabled(c, s)
    ensures Sound(Do(c, s))
  {
    hide Sound, WriteMore, StartWrite, Fail, Settled, Counted, Prefixes;
    match s
    case Post(data, dontblock) =>
      if data != [] {
        PostKeeps(c, Request(data, dontblock, [], 0));
      }
    case Meet(a) => StartKeeps(c, a);
    case Sent(a) => if c.state == Writing { WriteMoreKeeps(c, a); }
    case Poll(a) => if c.state == Writing { WriteMoreKeeps(c, a); }
    case Error(e) => FailKeeps(c, e);
    case Return(i) => ReturnKeeps(c, i);
    case SetNonblocking(on) => FlagKeeps(c, on);
  }

  lemma FlagKeeps(c: Conn, on: bool)
    requires Sound(c)
    ensures Sound(c.(nonblocking := on))
  {
    hide Prefixes;
  }

  // ----- whole runs

  /** All steps of the run are possible where they happen. */
  ghost predicate Possible(c: Conn, run: seq<Step>)
    requires Sound(c)
    decreases |run|
  {
    run == [] || (Enabled(c, run[0]) && (StepKeeps(c, run[0]); Possible(Do(c, run[0]), run[1..])))
  }

  ghost function After(c: Conn, run: seq<Step>): (r: Conn)
    requires Sound(c) && Possible(c, run)
    decreases |run|
  {
    if run == [] then c else
      StepKeeps(c, run[0]);
      After(Do(c, run[0]), run[1..])
  }

  lemma {:induction false} RunSound(c: Conn, run: seq<Step>)
    requires Sound(c) && Possible(c, run)
    ensures Sound(After(c, run))
    decreases |run|
  {
    hide Sound, Do, Enabled;
    if run != [] {
      StepKeeps(c, run[0]);
      RunSound(Do(c, run[0]), run[1..]);
    }
  }

  /**
   * Each request is acknowledged exactly once: never before it is over, and once it is over nothing that
   * happens later changes its result or what was taken of it.
   */
  lemma {:induction false} AcknowledgedOnce(c: Conn, run: seq<Step>, i: nat)
    requires Sound(c) && Possible(c, run) && i < |c.requests| && c.requests[i].results != []
    ensures var d := After(c, run); i < |d.requests| && d.requests[i] == c.requests[i] && |d.requests[i].results| == 1
    decreases |run|
  {
    hide Do, Enabled, Prefixes;
    if run != [] {
      StepLeaves(c, run[0], i);
      StepKeeps(c, run[0]);
      AcknowledgedOnce(Do(c, run[0]), run[1..], i);
    }
  }

  lemma StepLeaves(c: Conn, s: Step, i: nat)
    requires Sound(c) && Enabled(c, s) && i < |c.requests| && c.requests[i].results != []
    ensures i < |Do(c, s).requests| && Do(c, s).requests[i] == c.requests[i]
  {
    hide Prefixes, WriteMore;
    if c.state == Writing {
      if s.Sent? || s.Poll? {
        MoreLeaves(c, s.answer, i);
      }
    } else if s.Meet? && !Fatal(c.lastErr) && c.pcb {
      MoreLeaves(Started(c), s.answer, i);
    }
  }

  lemma MoreLeaves(c: Conn, a: Answer, i: nat)
    requires InProgress(c) && i < |c.requests| && i != c.current.value
    ensures i < |WriteMore(c, a).requests| && WriteMore(c, a).requests[i] == c.requests[i]
  {
  }

  /** What goes on the wire is never taken back, and always grows by the next bytes of a buffer. */
  lemma {:induction false} WireGrows(c: Conn, run: seq<Step>)
    requires Sound(c) && Possible(c, run)
    ensures c.wire <= After(c, run).wire
    decreases |run|
  {
    hide Sound, Enabled, Prefixes, Do;
    if run != [] {
      WireStep(c, run[0]);
      StepKeeps(c, run[0]);
      WireGrows(Do(c, run[0]), run[1..]);
    }
  }

  lemma WireStep(c: Conn, s: Step)
    requires Sound(c) && Enabled(c, s)
    ensures c.wire <= Do(c, s).wire
  {
    hide Prefixes, Settled, Counted;
  }

  // ----- when a request is over

  /**
   * A request in progress is acknowledged by this callback exactly when its last byte is taken, when
   * tcp_write reports anything but ERR_OK and ERR_MEM, or when it must not block and would have to.
   */
  lemma AcknowledgedWhen(c: Conn, a: Answer)
    requires Sound(c) && c.state == Writing
    ensures var q := c.requests[c.current.value];
            var left := |q.data| - c.offset;
            var mayBlock := !c.nonblocking && !q.dontblock;
            WriteMore(c, a).current == None <==>
              || a.result !in {ERR_OK, ERR_MEM}
              || (a.result == ERR_OK && left <= a.available && left <= MAX_U16)
              || (!mayBlock && (a.result == ERR_MEM || c.offset > 0 || left > a.available || left > MAX_U16))
  {
    hide Prefixes, Settled, Counted;
  }

  /** If a connection error arrives the request is acknowledged with it, and no callback follows. */
  lemma ErrorAcknowledges(c: Conn, e: Err)
    requires Sound(c) && Enabled(c, Error(e)) && c.state == Writing
    ensures var d := Do(c, Error(e));
            && d.current == None && d.requests[c.current.value].results == [e]
            && forall s: Step :: s.Sent? || s.Poll? || s.Error? ==> !Enabled(d, s)
  {
    hide Prefixes;
  }

  // ----- callers that return too early

  /** The caller of request i can return although the request is not over. */
  ghost predicate Early(c: Conn, i: nat) {
    Enabled(c, Return(i)) && !Over(c.requests[i])
  }

  /** Some call is not over: its message is in the mailbox, or its request is being written. */
  predicate Unfinished(c: Conn) {
    c.current.Some? || c.met < |c.requests|
  }

  /** Such a call while an acknowledgement waits to be taken. */
  predicate Hazard(c: Conn) {
    c.completed > 0 && Unfinished(c)
  }

  /** Calls that have not returned. */
  function Outstanding(c: Conn): (n: int) {
    |c.requests| - |c.returned|
  }

  /** Exactly the callers of unfinished requests, met or not, can return too early, if some acknowledgement is there. */
  lemma EarlyReturn(c: Conn, i: nat)
    requires Sound(c) && !c.broken
    ensures Early(c, i) <==> c.completed > 0 && (c.current == Some(i) || c.met <= i < |c.requests|)
    ensures i < |c.requests| ==> (Over(c.requests[i]) <==> c.requests[i].results != [])
  {
    hide Prefixes, Bounded, Counted;
  }

  lemma SoundState(c: Conn)
    requires Sound(c)
    ensures (c.state == Writing <==> c.current.Some?) && (c.current.Some? ==> InProgress(c)) && c.met <= |c.requests|
    ensures c.met < |c.requests| ==> |c.requests[c.met].data| > 0
  {
  }

  lemma MoreHazard(c: Conn, a: Answer)
    requires InProgress(c)
    ensures var d := WriteMore(c, a);
            && d.broken == c.broken && d.met == c.met && |d.requests| == |c.requests| && d.returned == c.returned
            && (if d.current == None then d.state == Idle && d.completed == c.completed + 1
                else d.current == c.current && d.completed == c.completed && d.state == c.state)
  {
  }

  /** What the tcpip thread does with the next message: one acknowledgement more, or one request in progress. */
  lemma MeetHazard(c: Conn, a: Answer)
    requires Sound(c) && c.met < |c.requests|
    ensures |c.requests[c.met].data| > 0
    ensures var d := StartWrite(c, a);
            && d.broken == c.broken && d.met == c.met + 1 && |d.requests| == |c.requests| && d.returned == c.returned
            && (if d.current == c.current then d.completed == c.completed + 1
                else c.current == None && d.current.Some? && d.completed == c.completed)
  {
    hide Prefixes, Bounded, Counted, Settled, Sound, WriteMore, Started;
    SoundState(c);
    if !Fatal(c.lastErr) && c.state == Idle && c.pcb {
      StartedWrites(c);
      StartedParts(c);
      MoreHazard(Started(c), a);
    }
  }

  lemma StartedParts(c: Conn)
    ensures var d := Started(c);
            d.met == c.met + 1 && d.requests == c.requests && d.returned == c.returned && d.current == Some(c.met)
  {
  }

  predicate NoPost(run: seq<Step>) {
    forall k :: 0 <= k < |run| ==> !run[k].Post?
  }

  /** Without a further write nothing becomes unfinished and nobody new is waiting. */
  lemma StepCalms(c: Conn, s: Step)
    requires Sound(c) && Enabled(c, s) && !s.Post?
    ensures Outstanding(Do(c, s)) <= Outstanding(c) && (Unfinished(Do(c, s)) ==> Unfinished(c))
  {
    hide Prefixes, Bounded, Counted, Settled, Sound, WriteMore, StartWrite;
    SoundState(c);
    match s
    case Meet(a) => MeetHazard(c, a);
    case Sent(a) => if c.state == Writing { MoreHazard(c, a); }
    case Poll(a) => if c.state == Writing { MoreHazard(c, a); }
    case Return(i) => assert |c.returned + {i}| >= |c.returned|;
    case Error(_) =>
    case SetNonblocking(_) =>
  }

  /** An early return needs two calls that have not returned. */
  lemma HazardNeedsTwo(c: Conn)
    requires Sound(c)
    ensures Hazard(c) ==> Outstanding(c) >= 2
    ensures !Hazard(c) && Unfinished(c) && Outstanding(c) >= 2 ==>
              c.completed == 0 && c.met < |c.requests| && (c.current == None ==> c.met + 1 < |c.requests|)
  {
    hide Prefixes, Bounded;
  }

  /** cont goes on from c, without a further write, to a state in which some caller can return early. */
  ghost predicate LeadsToEarly(c: Conn, cont: seq<Step>)
    requires Sound(c)
  {
    Possible(c, cont) && NoPost(cont) && exists i :: Early(After(c, cont), i)
  }

  ghost predicate CanEarly(c: Conn)
    requires Sound(c)
  {
    exists cont :: LeadsToEarly(c, cont)
  }

  lemma NotEarly(c: Conn)
    requires Sound(c) && !c.broken
    ensures (exists i :: Early(c, i)) <==> Hazard(c)
  {
    hide Sound, Early;
    if Hazard(c) {
      EarlyReturn(c, if c.current.Some? then c.current.value else c.met);
    }
    forall i: nat
      ensures Early(c, i) ==> Hazard(c)
    {
      EarlyReturn(c, i);
    }
  }

  lemma EarlyNow(c: Conn)
    requires Sound(c) && !c.broken && Hazard(c)
    ensures LeadsToEarly(c, [])
  {
    hide Sound, Early, Hazard;
    NotEarly(c);
    assert Possible(c, []) && After(c, []) == c;
  }

  /** One more step in front. */
  lemma LeadsBefore(c: Conn, s: Step, cont: seq<Step>)
    requires Sound(c) && Enabled(c, s) && !s.Post?
    ensures Sound(Do(c, s))
    ensures LeadsToEarly(Do(c, s), cont) ==> LeadsToEarly(c, [s] + cont)
  {
    hide Sound, Early, Do, Enabled;
    StepKeeps(c, s);
    var run := [s] + cont;
    assert run[0] == s && run[1..] == cont;
    if LeadsToEarly(Do(c, s), cont) {
      assert Possible(c, run) && After(c, run) == After(Do(c, s), cont);
      assert NoPost(run) by {
        forall k | 0 <= k < |run|
          ensures !run[k].Post?
        {
          if k > 0 {
            assert run[k] == cont[k - 1];
          }
        }
      }
    }
  }

  lemma {:induction false} LeadsNeedsTwo(c: Conn, cont: seq<Step>)
    requires Sound(c) && LeadsToEarly(c, cont)
    ensures Unfinished(c) && Outstanding(c) >= 2
    decreases |cont|
  {
    hide Sound, Early, Do, Enabled, Unfinished, Outstanding, Hazard;
    if cont == [] {
      EarlyUnbroken(c);
      NotEarly(c);
      HazardNeedsTwo(c);
      HazardUnfinished(c);
    } else {
      StepKeeps(c, cont[0]);
      assert NoPost(cont[1..]) by { assert forall k :: 0 <= k < |cont[1..]| ==> cont[1..][k] == cont[k + 1]; }
      var i :| Early(After(c, cont), i);
      assert Possible(Do(c, cont[0]), cont[1..]) && Early(After(Do(c, cont[0]), cont[1..]), i);
      LeadsNeedsTwo(Do(c, cont[0]), cont[1..]);
      StepCalms(c, cont[0]);
    }
  }

  lemma EarlyUnbroken(c: Conn)
    requires exists i :: Early(c, i)
    ensures !c.broken
  {
    hide Over;
  }

  lemma HazardUnfinished(c: Conn)
    ensures Hazard(c) ==> Unfinished(c)
  {
  }

  /**
   * Without a further write an early return can come about exactly if two calls have not returned and one of them
   * is not over: one is acknowledged before the other, now or by what the tcpip thread does next.
   */
  lemma CrossingIsHazard(c: Conn)
    requires Sound(c) && !c.broken
    ensures CanEarly(c) <==> Unfinished(c) && Outstanding(c) >= 2
  {
    hide Sound, LeadsToEarly, Do, Enabled, Hazard, Unfinished, Outstanding;
    if Unfinished(c) && Outstanding(c) >= 2 {
      if Hazard(c) {
        EarlyNow(c);
      } else {
        TwoMeet(c);
      }
    }
    if CanEarly(c) {
      var cont :| LeadsToEarly(c, cont);
      LeadsNeedsTwo(c, cont);
    }
  }

  /** With nothing acknowledged, the next message or the next two give one caller the acknowledgement of another. */
  lemma TwoMeet(c: Conn)
    requires Sound(c) && !c.broken && !Hazard(c) && Unfinished(c) && Outstanding(c) >= 2
    ensures CanEarly(c)
  {
    hide Sound, LeadsToEarly, StartWrite;
    HazardNeedsTwo(c);
    var s := Meet(Answer(0, ERR_OK));
    StepKeeps(c, s);
    MeetHazard(c, s.answer);
    var d := Do(c, s);
    LeadsBefore(c, s, []);
    LeadsBefore(c, s, [s]);
    if Hazard(d) {
      EarlyNow(d);
    } else {
      StepKeeps(d, s);
      MeetHazard(d, s.answer);
      LeadsBefore(d, s, []);
      EarlyNow(Do(d, s));
      assert [s] + [] == [s];
    }
  }

  /** In no state of the run can a caller return too early, nor does what is under way there lead to such a state. */
  ghost predicate NeverEarly(c: Conn, run: seq<Step>)
    requires Sound(c) && Possible(c, run)
    decreases |run|
  {
    && !CanEarly(c)
    && (run == [] || (StepKeeps(c, run[0]); NeverEarly(Do(c, run[0]), run[1..])))
  }

  /** Only a write out of turn opens the way to an early return. */
  lemma StepCrosses(c: Conn, s: Step)
    requires Sound(c) && !c.broken && Enabled(c, s) && !CanEarly(c)
    ensures Sound(Do(c, s)) && !Do(c, s).broken
    ensures CanEarly(Do(c, s)) <==> !InTurn(c, s)
  {
    hide Sound, CanEarly, Do, Enabled, Hazard, Unfinished, Outstanding, InTurn;
    StepKeeps(c, s);
    CrossingIsHazard(c);
    CalmStays(c, s);
    CrossingIsHazard(Do(c, s));
    if s.Post? {
      PostCounts(c, s);
    } else {
      StepCalms(c, s);
      OthersInTurn(c, s);
    }
  }

  lemma OthersInTurn(c: Conn, s: Step)
    ensures !s.Post? ==> InTurn(c, s)
  {
  }

  lemma PostCounts(c: Conn, s: Step)
    requires Sound(c) && Enabled(c, s) && s.Post?
    ensures var d := Do(c, s); if s.data == [] then d == c else Unfinished(d) && Outstanding(d) == Outstanding(c) + 1
    ensures Outstanding(c) >= 0 && (InTurn(c, s) <==> s.data == [] || Outstanding(c) == 0)
  {
    hide Prefixes, Bounded;
    Returned(c.returned, |c.requests|);
  }

  lemma Returned(s: set<nat>, n: nat)
    requires forall k :: k in s ==> k < n
    ensures |s| <= n && (|s| == n <==> forall k: nat :: k < n ==> k in s)
  {
    SubsetSize(s, Below(n));
    if |s| == n {
      forall k: nat | k < n
        ensures k in s
      {
        if k !in s {
          SubsetSize(s, Below(n) - {k});
        }
      }
    } else if forall k: nat :: k < n ==> k in s {
      SubsetSize(Below(n), s);
    }
  }

  lemma SubsetSize(a: set<nat>, b: set<nat>)
    requires a <= b
    ensures |a| <= |b|
  {
    assert b == a + (b - a);
  }

  lemma CalmStays(c: Conn, s: Step)
    requires Sound(c) && Enabled(c, s) && !(Unfinished(c) && Outstanding(c) >= 2)
    ensures !Do(c, s).broken
  {
    hide Sound, Hazard, Unfinished, Outstanding, Do, Early;
    BreaksEarly(c, s);
    HazardNeedsTwo(c);
    HazardUnfinished(c);
    NotEarly(c);
  }

  lemma BreaksEarly(c: Conn, s: Step)
    requires Sound(c) && Enabled(c, s)
    ensures !c.broken && (Do(c, s).broken ==> exists i :: Early(c, i))
  {
    hide Sound, Do, Over;
    StepBreaks(c, s);
    if s.Return? && !Over(c.requests[s.request]) {
      assert Early(c, s.request);
    }
  }

  /**
   * At no point of a run can a caller return early, then or by what is under way, exactly if every write is called
   * only after the earlier ones have returned; then the netconn never breaks.
   */
  lemma {:induction false} EarlyExactly(c: Conn, run: seq<Step>)
    requires Sound(c) && !c.broken && !CanEarly(c) && Possible(c, run)
    ensures NeverEarly(c, run) <==> OneCaller(c, run)
    ensures OneCaller(c, run) ==> !After(c, run).broken
    decreases |run|
  {
    hide Sound, Do, Enabled, CanEarly, InTurn;
    if run != [] {
      StepCrosses(c, run[0]);
      if InTurn(c, run[0]) {
        EarlyExactly(Do(c, run[0]), run[1..]);
      }
    }
  }

  /** A netconn on which every call has returned, such as a new one, is a start for that. */
  lemma QuietStart(c: Conn)
    requires Sound(c) && !c.broken && forall k :: 0 <= k < |c.requests| ==> k in c.returned
    ensures !CanEarly(c)
  {
    hide CanEarly, Prefixes, Bounded, Settled;
    CrossingIsHazard(c);
    Returned(c.returned, |c.requests|);
  }

  /** One caller at a time: all requests but the last have returned, and what has returned is over. */
  ghost predicate Alone(c: Conn) {
    forall k :: 0 <= k < |c.requests| ==>
      (k < |c.requests| - 1 ==> k in c.returned) && (k in c.returned ==> Over(c.requests[k]))
  }

  /** The caller writes only after its last write has returned. */
  ghost predicate InTurn(c: Conn, s: Step) {
    s.Post? && s.data != [] ==> forall k :: 0 <= k < |c.requests| ==> k in c.returned
  }

  /** A single caller returns from a write exactly when that write is over: the result it finds is its own. */
  lemma CallerReturns(c: Conn)
    requires Sound(c) && !c.broken && Alone(c) && |c.requests| > 0 && |c.requests| - 1 !in c.returned
    ensures Enabled(c, Return(|c.requests| - 1)) <==> Over(c.requests[|c.requests| - 1])
  {
    hide Prefixes, Bounded, InProgress, Below, Over;
    var last := |c.requests| - 1;
    EarlyReturn(c, last);
    assert |c.returned| == last by {
      assert c.returned == Below(last);
    }
    if c.current.Some? {
      CurrentIsLast(c);
    }
  }

  lemma CurrentIsLast(c: Conn)
    requires Sound(c) && Alone(c) && c.current.Some?
    ensures c.current.value == |c.requests| - 1 && !Over(c.requests[c.current.value])
  {
    hide Prefixes, Bounded, Counted, InProgress;
  }

  function Below(n: nat): (s: set<nat>)
    ensures |s| == n && forall k: nat :: k in s <==> k < n
  {
    if n == 0 then {} else Below(n - 1) + {n - 1}
  }

  lemma StepAlone(c: Conn, s: Step)
    requires Sound(c) && Alone(c) && Enabled(c, s) && InTurn(c, s)
    ensures Alone(Do(c, s)) && !Do(c, s).broken
  {
    hide Prefixes, Sound, Over;
    StepBreaks(c, s);
    var d := Do(c, s);
    forall k | 0 <= k < |d.requests|
      ensures (k < |d.requests| - 1 ==> k in d.returned) && (k in d.returned ==> Over(d.requests[k]))
    {
      if s.Return? {
        if k == s.request && k !in c.returned {
          CallerReturns(c);
        }
      } else {
        StepReturned(c, s);
        if k in c.returned {
          OverAnswered(c, k);
          StepLeaves(c, s, k);
        }
      }
    }
  }

  /** Only an early return breaks the netconn. */
  lemma StepBreaks(c: Conn, s: Step)
    requires Sound(c) && Enabled(c, s)
    ensures Do(c, s).broken <==> s.Return? && !Over(c.requests[s.request])
  {
    hide Prefixes, Bounded, Counted, Sound, WriteMore, Over;
    SoundState(c);
    if s.Return? {
      EarlyReturn(c, s.request);
    } else if (s.Sent? || s.Poll?) && c.state == Writing {
      MoreHazard(c, s.answer);
    } else if s.Meet? {
      MeetHazard(c, s.answer);
    }
  }

  lemma OverAnswered(c: Conn, k: nat)
    requires k < |c.requests| && Over(c.requests[k])
    ensures c.requests[k].results != []
  {
  }

  lemma StepReturned(c: Conn, s: Step)
    requires Sound(c) && Enabled(c, s) && !s.Return?
    ensures Do(c, s).returned == c.returned
    ensures |Do(c, s).requests| == |c.requests| + if s.Post? && s.data != [] then 1 else 0
    ensures forall k :: k in c.returned ==> k < |c.requests|
  {
    hide Prefixes, Settled, WriteMore;
    if (s.Sent? || s.Poll?) && c.state == Writing {
      MoreHazard(c, s.answer);
    } else if s.Meet? {
      MeetHazard(c, s.answer);
    }
  }

  ghost predicate OneCaller(c: Conn, run: seq<Step>)
    requires Sound(c) && Possible(c, run)
    decreases |run|
  {
    run == [] || (InTurn(c, run[0]) && (StepKeeps(c, run[0]); OneCaller(Do(c, run[0]), run[1..])))
  }

  /** In every run of a single caller, it returns from each write when that write is over, and not before. */
  lemma {:induction false} RunAlone(c: Conn, run: seq<Step>)
    requires Sound(c) && !c.broken && Possible(c, run) && OneCaller(c, run) && Alone(c)
    ensures Sound(After(c, run)) && Alone(After(c, run)) && !After(c, run).broken
    ensures var d := After(c, run); var last := |d.requests| - 1;
            last >= 0 && last !in d.returned ==> (Enabled(d, Return(last)) <==> Over(d.requests[last]))
    decreases |run|
  {
    hide Sound, Do, Enabled, Alone, InTurn, Over;
    if run == [] {
      if |c.requests| > 0 && |c.requests| - 1 !in c.returned {
        CallerReturns(c);
      }
    } else {
      StepAlone(c, run[0]);
      StepKeeps(c, run[0]);
      RunAlone(Do(c, run[0]), run[1..]);
    }
  }

  /**
   * With two callers op_completed is shared: here the second request is refused because the first is in
   * progress, and the first caller can return on the acknowledgement meant for the second.
   */
  lemma CallersCross()
    ensures var a := Answer(1, ERR_OK);
            var run := [Post([1, 2], false), Post([3], false), Meet(a), Meet(a)];
            && Sound(Fresh(false)) && Possible(Fresh(false), run) && Sound(After(Fresh(false), run))
            && Early(After(Fresh(false), run), 0) && Do(After(Fresh(false), run), Return(0)).broken
  {
    hide Sound, Prefixes, Do, Enabled, Early;
    var a := Answer(1, ERR_OK);
    var run := [Post([1, 2], false), Post([3], false), Meet(a), Meet(a)];
    var c1 := TwoPosted([1, 2], [3]);
    PostedFirst([1, 2], [3], [Meet(a), Meet(a)]);
    assert run == [Post([1, 2], false), Post([3], false)] + [Meet(a), Meet(a)];
    assert [Meet(a), Meet(a)][1..] == [Meet(a)] && [Meet(a)][1..] == [];
    FirstStays();
    var c2 := Do(c1, Meet(a));
    SecondRefused(c2);
    var c3 := Do(c2, Meet(a));
    assert Possible(c3, []) && Possible(c2, [Meet(a)]) && Possible(c1, [Meet(a), Meet(a)]);
    assert After(c1, [Meet(a), Meet(a)]) == After(c2, [Meet(a)]) == After(c3, []) == c3;
  }

  lemma FirstStays()
    requires Sound(TwoPosted([1, 2], [3]))
    ensures var c, s := TwoPosted([1, 2], [3]), Meet(Answer(1, ERR_OK));
            && Enabled(c, s) && Sound(Do(c, s)) && !Do(c, s).broken && Do(c, s).current == Some(0)
            && Do(c, s).met == 1 && |Do(c, s).requests| == 2 && Do(c, s).completed == 0
  {
    hide Sound, Prefixes;
    StepKeeps(TwoPosted([1, 2], [3]), Meet(Answer(1, ERR_OK)));
  }

  lemma SecondRefused(c: Conn)
    requires Sound(c) && !c.broken && c.current == Some(0) && c.met == 1 && |c.requests| == 2 && c.completed == 0
    ensures var s := Meet(Answer(1, ERR_OK));
            && Enabled(c, s) && Sound(Do(c, s)) && Early(Do(c, s), 0) && Do(Do(c, s), Return(0)).broken
  {
    hide Sound, Prefixes, StartWrite, Over;
    var s := Meet(Answer(1, ERR_OK));
    StepKeeps(c, s);
    SoundState(c);
    MeetHazard(c, s.answer);
    var d := Do(c, s);
    assert d.current == Some(0) by { KeepsCurrent(c, s.answer); }
    EarlyReturn(d, 0);
    StepBreaks(d, Return(0));
  }

  lemma KeepsCurrent(c: Conn, a: Answer)
    requires Sound(c) && c.met < |c.requests| && c.current.Some?
    ensures |c.requests[c.met].data| > 0 && StartWrite(c, a).current == c.current
  {
    hide Prefixes, Settled, Counted;
  }

  /** Also if each write is done at once: the second caller can return while its message is still in the mailbox. */
  lemma QueuedCallersCross()
    ensures var run := [Post([1], false), Post([2], false), Meet(Answer(1, ERR_OK))];
            && Sound(Fresh(false)) && Possible(Fresh(false), run) && Sound(After(Fresh(false), run))
            && Early(After(Fresh(false), run), 1) && Do(After(Fresh(false), run), Return(1)).broken
  {
    hide Sound, Prefixes;
    var a := Answer(1, ERR_OK);
    var run := [Post([1], false), Post([2], false), Meet(a)];
    PostedFirst([1], [2], [Meet(a)]);
    assert run == [Post([1], false), Post([2], false)] + [Meet(a)];
    var c1 := TwoPosted([1], [2]);
    assert run[2..] == [Meet(a)] && run[2..][1..] == [];
    StepKeeps(c1, Meet(a));
    var c2 := Do(c1, Meet(a));
    assert c2.completed == 1 && |c2.requests| == 2 && c2.requests[1].results == [] && c2.returned == {} && c2.met == 1;
    assert Possible(c2, []) && Possible(c1, run[2..]);
    assert After(c1, run[2..]) == After(c2, []) == c2;
  }

  /** A new netconn after two callers have posted a write. */
  function TwoPosted(x: seq<bv8>, y: seq<bv8>): (c: Conn) {
    Fresh(false).(requests := [Request(x, false, [], 0), Request(y, false, [], 0)])
  }

  lemma PostedFirst(x: seq<bv8>, y: seq<bv8>, rest: seq<Step>)
    requires x != [] && y != []
    ensures Sound(Fresh(false)) && Sound(TwoPosted(x, y))
    ensures var run := [Post(x, false), Post(y, false)] + rest;
            Possible(TwoPosted(x, y), rest) ==>
              Possible(Fresh(false), run) && After(Fresh(false), run) == After(TwoPosted(x, y), rest)
  {
    hide Sound, Prefixes, Do, Enabled;
    var run, s0, s1 := [Post(x, false), Post(y, false)] + rest, Post(x, false), Post(y, false);
    FreshSound(false);
    OnePost(Fresh(false), s0);
    StepKeeps(Fresh(false), s0);
    var c1 := Do(Fresh(false), s0);
    OnePost(c1, s1);
    StepKeeps(c1, s1);
    assert Do(c1, s1) == TwoPosted(x, y);
    assert run[1..] == [s1] + rest && ([s1] + rest)[1..] == rest;
  }

  lemma OnePost(c: Conn, s: Step)
    requires Sound(c) && !c.broken && s.Post? && s.data != []
    ensures Enabled(c, s) && Do(c, s) == c.(requests := c.requests + [Request(s.data, s.dontblock, [], 0)])
  {
    hide Sound;
  }

  // ----- the write gets through

  function Room(answers: seq<Answer>): (run: seq<Step>)
    ensures |run| == |answers|
  {
    seq(|answers|, k requires 0 <= k < |answers| => Sent(answers[k]))
  }

  /**
   * A blocking write is finished after as many sent callbacks that find room as bytes remain, at most: it is
   * acknowledged with ERR_OK and TCP has taken the whole buffer.
   */
  lemma {:induction false} WriteGetsThrough(c: Conn, answers: seq<Answer>)
    requires Sound(c) && !c.broken && c.state == Writing && !c.nonblocking && !c.requests[c.current.value].dontblock
    requires forall k :: 0 <= k < |answers| ==> answers[k].available > 0 && answers[k].result == ERR_OK
    requires |answers| >= |c.requests[c.current.value].data| - c.offset
    ensures Possible(c, Room(answers))
    ensures var d := After(c, Room(answers)); var i := c.current.value;
            i < |d.requests| && d.requests[i].results == [ERR_OK] && d.requests[i].taken == |c.requests[i].data|
    decreases |answers|
  {
    hide Prefixes, WriteMore, Counted, Settled;
    var i, q := c.current.value, c.requests[c.current.value];
    var s := Sent(answers[0]);
    assert Room(answers)[0] == s && Room(answers)[1..] == Room(answers[1..]);
    StepKeeps(c, s);
    var d := Do(c, s);
    MoreTakes(c, answers[0]);
    if d.state == Writing {
      WriteGetsThrough(d, answers[1..]);
    } else {
      IdleStays(d, answers[1..]);
    }
  }

  lemma MoreTakes(c: Conn, a: Answer)
    requires Sound(c) && c.state == Writing && !c.nonblocking && !c.requests[c.current.value].dontblock
    requires a.available > 0 && a.result == ERR_OK
    ensures var d := WriteMore(c, a); var i := c.current.value;
            && i < |d.requests| && d.requests[i].data == c.requests[i].data && d.requests[i].dontblock == c.requests[i].dontblock
            && d.pcb && d.nonblocking == c.nonblocking && d.broken == c.broken
            && (d.state == Writing ==> d.current == c.current && d.offset > c.offset)
            && (d.state != Writing ==> d.requests[i].results == [ERR_OK] && d.requests[i].taken == |c.requests[i].data|)
  {
    hide Prefixes, Counted;
  }

  lemma {:induction false} IdleStays(c: Conn, answers: seq<Answer>)
    requires Sound(c) && !c.broken && c.state == Idle && c.pcb
    ensures Possible(c, Room(answers)) && After(c, Room(answers)) == c
    decreases |answers|
  {
    hide Sound;
    if answers != [] {
      assert Room(answers)[0] == Sent(answers[0]) && Room(answers)[1..] == Room(answers[1..]);
      IdleStays(c, answers[1..]);
    }
  }
}

/** api_msg.c: the netconn whose fields the tcpip thread updates in place. */
module NetconnApi {
  import opened NetconnProtocol

  class Netconn {
    var state: State
    var currentMsg: Option<nat>
    var writeOffset: nat
    var lastErr: Err
    var pcb: bool
    var nonblocking: bool
    var msgs: seq<Request>
    var met: nat
    var opCompleted: nat
    var returned: set<nat>
    var wire: seq<bv8>
    var broken: bool

    ghost function Abs(): (c: Conn)
      reads this
    {
      Conn(state, currentMsg, writeOffset, lastErr, pcb, nonblocking, msgs, met, opCompleted, returned, wire, broken)
    }

    constructor (nonblocking: bool)
      ensures Abs() == Fresh(nonblocking) && Sound(Abs())
    {
      state, currentMsg, writeOffset, lastErr := Idle, None, 0, ERR_OK;
      pcb, this.nonblocking, msgs, met, opCompleted, returned, wire, broken := true, nonblocking, [], 0, 0, {}, [], false;
      new;
      FreshSound(nonblocking);
    }

    /** msg->err is set and op_completed is signalled. */
    method Ack(i: nat, err: Err)
      requires i < |msgs|
      modifies this`msgs, this`opCompleted
      ensures Abs() == Acknowledge(old(Abs()), i, err)
    {
      msgs := msgs[i := msgs[i].(results := msgs[i].results + [err])];
      opCompleted := opCompleted + 1;
    }

    /** tcp_write: the answer decides whether the bytes are taken. */
    method TcpWrite(len: nat, a: Answer) returns (err: Err)
      requires currentMsg.Some? && currentMsg.value < |msgs| && writeOffset + len <= |msgs[currentMsg.value].data|
      modifies this`msgs, this`wire
      ensures err == a.result
      ensures Abs() == if err == ERR_OK then Take(old(Abs()), len).(offset := writeOffset) else old(Abs())
    {
      err := a.result;
      if err == ERR_OK {
        var q := msgs[currentMsg.value];
        wire := wire + q.data[writeOffset..writeOffset + len];
        msgs := msgs[currentMsg.value := q.(taken := q.taken + len)];
      }
    }

    /** do_writemore */
    method DoWritemore(a: Answer)
      requires InProgress(Abs())
      modifies this
      ensures Abs() == WriteMore(old(Abs()), a)
    {
      var err, writeFinished := ERR_OK, false;
      var q := msgs[currentMsg.value];
      var dontblock := nonblocking || q.dontblock;
      var diff := |q.data| - writeOffset;
      var len := if diff > MAX_U16 then MAX_U16 else diff;
      if a.available < len {
        len := a.available;
      }
      if dontblock && len < |q.data| {
        err := ERR_MEM;
      }
      if err == ERR_OK {
        err := TcpWrite(len, a);
      }
      if dontblock && err == ERR_MEM {
        writeFinished, err := true, ERR_WOULDBLOCK;
      } else if err == ERR_OK {
        writeOffset := writeOffset + len;
        if writeOffset == |q.data| {
          writeFinished, writeOffset := true, 0;
        }
      } else if err != ERR_MEM {
        writeFinished := true;
      }
      if writeFinished {
        EndWrite(err);
      }
    }

    /** The end of do_writemore: the caller is woken. */
    method EndWrite(err: Err)
      requires currentMsg.Some? && currentMsg.value < |msgs|
      modifies this`msgs, this`opCompleted, this`currentMsg, this`state
      ensures Abs() == Finish(old(Abs()), err)
    {
      hide Acknowledge;
      Ack(currentMsg.value, err);
      AckLeaves(old(Abs()), currentMsg.value, err);
      currentMsg, state := None, Idle;
    }

    /** netconn_write up to the wait for op_completed: the message is in the mailbox of the tcpip thread. */
    method Post(data: seq<bv8>, dontblock: bool)
      requires Sound(Abs()) && !broken
      modifies this`msgs
      ensures Abs() == Do(old(Abs()), NetconnProtocol.Post(data, dontblock)) && Sound(Abs())
    {
      hide Sound, Prefixes;
      StepKeeps(Abs(), NetconnProtocol.Post(data, dontblock));
      if |data| > 0 {
        msgs := msgs + [Request(data, dontblock, [], 0)];
      }
    }

    /** do_write, for the oldest message in the mailbox. */
    method DoWrite(a: Answer)
      requires Sound(Abs()) && Enabled(Abs(), Meet(a))
      modifies this
      ensures Abs() == Do(old(Abs()), Meet(a)) && Sound(Abs())
    {
      hide Sound, Prefixes, WriteMore;
      StepKeeps(Abs(), Meet(a));
      StartedWrites(Abs());
      SoundState(Abs());
      var i := met;
      met := met + 1;
      if Fatal(lastErr) {
        Ack(i, lastErr);
      } else if state != Idle {
        Ack(i, ERR_INPROGRESS);
      } else if pcb {
        state, currentMsg, writeOffset := Writing, Some(i), 0;
        DoWritemore(a);
      } else {
        Ack(i, ERR_CONN);
      }
    }

    /** sent_tcp */
    method SentTcp(a: Answer)
      requires Sound(Abs()) && !broken && pcb
      modifies this
      ensures Abs() == Do(old(Abs()), Sent(a)) && Sound(Abs())
    {
      hide Prefixes, WriteMore, Settled, Counted;
      StepKeeps(Abs(), Sent(a));
      if state == Writing {
        DoWritemore(a);
      }
    }

    /** poll_tcp */
    method PollTcp(a: Answer)
      requires Sound(Abs()) && !broken && pcb
      modifies this
      ensures Abs() == Do(old(Abs()), Poll(a)) && Sound(Abs())
    {
      hide Prefixes, WriteMore, Settled, Counted;
      StepKeeps(Abs(), Poll(a));
      if state == Writing {
        DoWritemore(a);
      }
    }

    /** err_tcp */
    method ErrTcp(err: Err)
      requires Sound(Abs()) && !broken && pcb && Fatal(err)
      modifies this
      ensures Abs() == Do(old(Abs()), Error(err)) && Sound(Abs())
    {
      hide Prefixes, Settled, Counted;
      StepKeeps(Abs(), Error(err));
      pcb := false;
      lastErr := err;
      var oldState := state;
      state := Idle;
      if oldState == Writing {
        Ack(currentMsg.value, err);
        currentMsg := None;
      }
    }

    /**
     * netconn_write after the wait: the caller takes its result, and its request ceases to exist. If the request is
     * not over there is no result to take, and the netconn or the mailbox still points to it.
     */
    method FinishCall(i: nat) returns (err: Option<Err>)
      requires Sound(Abs()) && Enabled(Abs(), Return(i))
      modifies this
      ensures Abs() == Do(old(Abs()), Return(i)) && Sound(Abs())
      ensures if old(Early(Abs(), i)) then err == None && broken else err == Some(msgs[i].results[0]) && !broken
    {
      hide Prefixes, Settled, Counted;
      StepKeeps(Abs(), Return(i));
      EarlyReturn(Abs(), i);
      opCompleted := opCompleted - 1;
      returned := returned + {i};
      if msgs[i].results == [] {
        err, broken := None, true;
      } else {
        err := Some(msgs[i].results[0]);
        if !Fatal(lastErr) {
          lastErr := msgs[i].results[0];
        }
      }
    }
  }
}
