/**
 * The resolver's table of host name queries: queries are accepted, sent again on a timer and to further servers,
 * answered, given up, and kept for their time to live. What a packet says is an input.
 */
module DnsProtocol {

  datatype Option<T> = None | Some(value: T)

  const DNS_TABLE_SIZE: nat := 4
  const DNS_MAX_SERVERS: nat := 2
  const DNS_MAX_RETRIES: nat := 4
  const DNS_MAX_NAME_LENGTH: nat := 256
  const DNS_MAX_TTL: nat := 604800

  type U8 = x: int | 0 <= x < 256
  type U32 = x: int | 0 <= x < 0x1_0000_0000

  datatype EntryState = Unused | New | Asking | Done

  /** An entry of the table; arg tells the query it belongs to, found whether that has a callback. */
  datatype Entry = Entry(
    state: EntryState, numdns: U8, tmr: U8, retries: U8, seqno: U8, ttl: U32, name: string, ipaddr: nat,
    found: bool, arg: nat)

  /** A query that was accepted, and whether a callback came with it. */
  datatype Query = Query(name: string, provided: bool)

  /** A callback: the name, the address or NULL, and the argument given with the query. */
  datatype Callback = Callback(name: string, answer: Option<nat>, arg: nat)

  /** A packet sent to a server about an entry. */
  datatype Packet = Packet(server: nat, id: nat)

  /** Address 0 in servers stands for a server that is not set. */
  datatype Resolver = Resolver(
    table: seq<Entry>, servers: seq<nat>, seqno: U8, queries: seq<Query>, log: seq<Callback>, sent: seq<Packet>)

  /** What dns_recv makes of a packet: unusable, an error or no address in it, or an address. */
  datatype Reply = Unusable | Failed | Address(ttl: U32, ipaddr: nat)

  datatype Step =
    | Ask(name: string, provided: bool)
    | Tick
    | Receive(id: nat, reply: Reply)
    | SetServer(numdns: nat, address: nat)

  /** x++ and --x on eight bits. */
  function Next8(x: U8): (r: U8) {
    (x + 1) % 256
  }

  function Last8(x: U8): (r: U8) {
    (x + 255) % 256
  }

  function ServerAt(servers: seq<nat>, n: nat): (address: nat) {
    if n < |servers| then servers[n] else 0
  }

  /** There is another server to turn to. */
  predicate HasNext(e: Entry, servers: seq<nat>) {
    e.numdns + 1 < DNS_MAX_SERVERS && ServerAt(servers, e.numdns + 1) != 0
  }

  /** The timer of this query runs out now. */
  predicate Rings(e: Entry) {
    e.state == Asking && Last8(e.tmr) == 0
  }

  /** The last try with this server has failed now. */
  predicate GivesUp(e: Entry) {
    Rings(e) && Next8(e.retries) == DNS_MAX_RETRIES
  }

  predicate TimesOut(e: Entry, servers: seq<nat>) {
    GivesUp(e) && !HasNext(e, servers)
  }

  /** What dns_check_entry makes of an entry. */
  function Check(e: Entry, servers: seq<nat>): (r: Entry) {
    match e.state
    case New => e.(state := Asking, numdns := 0, tmr := 1, retries := 0)
    case Asking =>
      if !Rings(e) then e.(tmr := Last8(e.tmr))
      else if !GivesUp(e) then e.(tmr := Next8(e.retries), retries := Next8(e.retries))
      else if HasNext(e, servers) then e.(numdns := e.numdns + 1, tmr := 1, retries := 0)
      else e.(state := Unused, found := false, tmr := 0, retries := Next8(e.retries))
    case Done =>
      if e.ttl == 1 then e.(state := Unused, found := false, ttl := 0)
      else e.(ttl := (e.ttl + 0xffff_ffff) % 0x1_0000_0000)
    case Unused => e
  }

  /** A packet goes out with it. */
  predicate Sends(e: Entry) {
    e.state == New || (Rings(e) && !GivesUp(e))
  }

  function Calls(e: Entry, answer: Option<nat>): (cs: seq<Callback>) {
    if e.found then [Callback(e.name, answer, e.arg)] else []
  }

  /** dns_check_entry */
  function CheckEntry(d: Resolver, i: nat): (r: Resolver)
    requires i < |d.table|
  {
    var e := d.table[i];
    var e' := Check(e, d.servers);
    d.(table := d.table[i := e'],
       log := if TimesOut(e, d.servers) then d.log + Calls(e, None) else d.log,
       sent := if Sends(e) then d.sent + [Packet(ServerAt(d.servers, e'.numdns), i)] else d.sent)
  }

  /** dns_check_entries, from entry i on */
  function CheckFrom(d: Resolver, i: nat): (r: Resolver)
    requires i <= |d.table|
    decreases |d.table| - i
  {
    if i == |d.table| then d else CheckFrom(CheckEntry(d, i), i + 1)
  }

  function Cached(e: Entry, ttl: U32, ipaddr: nat): (r: Entry) {
    e.(state := Done, ttl := if ttl > DNS_MAX_TTL then DNS_MAX_TTL else ttl, ipaddr := ipaddr)
  }

  /** dns_recv, once the packet has been read. */
  function Answered(d: Resolver, id: nat, reply: Reply): (r: Resolver) {
    if reply == Unusable || id >= |d.table| || d.table[id].state != Asking then d
    else
      var e := d.table[id];
      if reply.Address? then
        d.(table := d.table[id := Cached(e, reply.ttl, reply.ipaddr)], log := d.log + Calls(e, Some(reply.ipaddr)))
      else
        d.(table := d.table[id := e.(state := Unused, found := false)], log := d.log + Calls(e, None))
  }

  /** The first unused entry, or the size of the table. */
  function FirstUnused(table: seq<Entry>, i: nat): (k: nat)
    requires i <= |table|
    ensures i <= k <= |table| && (forall j :: i <= j < k ==> table[j].state != Unused)
    ensures k < |table| ==> table[k].state == Unused
    decreases |table| - i
  {
    if i == |table| || table[i].state == Unused then i else FirstUnused(table, i + 1)
  }

  /** The entry among the first n that the scan takes for the oldest one that is done, with its age. */
  function Oldest(table: seq<Entry>, seqno: U8, n: nat): (r: (nat, nat))
    requires n <= |table|
    ensures r.0 < n || r == (0, 0)
  {
    if n == 0 then (0, 0)
    else
      var (k, age) := Oldest(table, seqno, n - 1);
      var e := table[n - 1];
      if e.state == Done && seqno - e.seqno > age then (n - 1, seqno - e.seqno) else (k, age)
  }

  /** The entry that a new query gets. */
  function Slot(d: Resolver): (i: Option<nat>) {
    var k := FirstUnused(d.table, 0);
    if k < |d.table| then Some(k)
    else
      var lseqi := Oldest(d.table, d.seqno, |d.table|).0;
      if lseqi >= |d.table| || d.table[lseqi].state != Done then None else Some(lseqi)
  }

  function Shortened(name: string): (n: string) {
    if |name| < DNS_MAX_NAME_LENGTH then name else name[..DNS_MAX_NAME_LENGTH - 1]
  }

  /** The entry is filled for a new query. */
  function Filled(d: Resolver, i: nat, name: string, provided: bool): (r: Resolver)
    requires i < |d.table|
  {
    var e := d.table[i].(state := New, seqno := d.seqno, found := provided, arg := |d.queries|, name := Shortened(name));
    d.(table := d.table[i := e], seqno := Next8(d.seqno), queries := d.queries + [Query(Shortened(name), provided)])
  }

  /** dns_enqueue; if there is no entry for it the query is refused, with ERR_MEM. */
  function Enqueued(d: Resolver, name: string, provided: bool): (r: Resolver) {
    var i := Slot(d);
    if i == None then d else CheckEntry(Filled(d, i.value, name, provided), i.value)
  }

  /** dns_setserver */
  function ServerSet(d: Resolver, numdns: nat, address: nat): (r: Resolver) {
    if numdns < |d.servers| && numdns < DNS_MAX_SERVERS && address != 0 then d.(servers := d.servers[numdns := address]) else d
  }

  function Do(d: Resolver, s: Step): (r: Resolver) {
    match s
    case Ask(name, provided) => Enqueued(d, name, provided)
    case Tick => CheckFrom(d, 0)
    case Receive(id, reply) => Answered(d, id, reply)
    case SetServer(numdns, address) => ServerSet(d, numdns, address)
  }

  function After(d: Resolver, run: seq<Step>): (r: Resolver)
    decreases |run|
  {
    if run == [] then d else After(Do(d, run[0]), run[1..])
  }

  // ----- the invariant

  /** How often query q has been called back. */
  function Count(log: seq<Callback>, q: nat): (n: nat) {
    if log == [] then 0 else Count(log[..|log| - 1], q) + if log[|log| - 1].arg == q then 1 else 0
  }

  /** Entry i is asking on behalf of query q. */
  predicate AsksFor(d: Resolver, i: nat, q: nat) {
    i < |d.table| && d.table[i].state == Asking && d.table[i].arg == q
  }

  ghost predicate Pending(d: Resolver, q: nat) {
    exists i :: AsksFor(d, i, q)
  }

  /** An entry that is asking: its timer runs, it asks a server that is set, for a query that was accepted. */
  ghost predicate EntryOk(e: Entry, servers: seq<nat>, queries: seq<Query>) {
    && e.state != New
    && (e.state == Asking ==>
          && e.retries < DNS_MAX_RETRIES && 0 < e.tmr <= (if e.retries == 0 then 1 else e.retries)
          && e.numdns < DNS_MAX_SERVERS && ServerAt(servers, e.numdns) != 0
          && e.arg < |queries| && Query(e.name, e.found) == queries[e.arg])
  }

  ghost predicate EntriesOk(d: Resolver) {
    && |d.table| == DNS_TABLE_SIZE && |d.servers| == DNS_MAX_SERVERS && d.servers[0] != 0
    && forall i :: 0 <= i < |d.table| ==> EntryOk(d.table[i], d.servers, d.queries)
  }

  /** No two entries ask for the same query. */
  ghost predicate Distinct(d: Resolver) {
    forall i, j, q :: AsksFor(d, i, q) && AsksFor(d, j, q) ==> i == j
  }

  /** A query with a callback has been called back once unless it is pending, and then not yet. */
  ghost predicate CalledOnce(d: Resolver) {
    forall q :: 0 <= q < |d.queries| ==> Count(d.log, q) == if d.queries[q].provided && !Pending(d, q) then 1 else 0
  }

  /** Callbacks bear the name that was asked for, and packets go to servers that are set. */
  ghost predicate LogOk(d: Resolver) {
    && (forall k :: 0 <= k < |d.log| ==> d.log[k].arg < |d.queries| && d.log[k].name == d.queries[d.log[k].arg].name)
    && (forall k :: 0 <= k < |d.sent| ==> d.sent[k].server != 0 && d.sent[k].id < DNS_TABLE_SIZE)
  }

  ghost predicate Ok(d: Resolver) {
    EntriesOk(d) && Distinct(d) && CalledOnce(d) && LogOk(d)
  }

  // ----- every step keeps the invariant

  lemma CountAppend(log: seq<Callback>, c: Callback, q: nat)
    ensures Count(log + [c], q) == Count(log, q) + if c.arg == q then 1 else 0
  {
    assert (log + [c])[..|log|] == log;
  }

  lemma CountCalls(log: seq<Callback>, e: Entry, answer: Option<nat>, q: nat)
    ensures Count(log + Calls(e, answer), q) == Count(log, q) + if e.found && e.arg == q then 1 else 0
  {
    if e.found {
      CountAppend(log, Callback(e.name, answer, e.arg), q);
    } else {
      assert log + [] == log;
    }
  }

  /** The entry i goes on as it did: asking for the same query, or not asking. */
  predicate SameDuty(e: Entry, e': Entry) {
    (e'.state == Asking <==> e.state == Asking) && e'.arg == e.arg
  }

  lemma SameDutyPending(d: Resolver, i: nat, e': Entry)
    requires i < |d.table| && SameDuty(d.table[i], e')
    ensures forall q :: Pending(d.(table := d.table[i := e']), q) == Pending(d, q)
    ensures Distinct(d) ==> Distinct(d.(table := d.table[i := e']))
  {
    var d' := d.(table := d.table[i := e']);
    assert forall j, q :: AsksFor(d', j, q) == AsksFor(d, j, q);
    forall q
      ensures Pending(d', q) == Pending(d, q)
    {
      if Pending(d, q) {
        var j :| AsksFor(d, j, q);
        assert AsksFor(d', j, q);
      }
    }
  }

  lemma GoesOn(d: Resolver, i: nat, e': Entry)
    requires Ok(d) && i < |d.table| && SameDuty(d.table[i], e') && EntryOk(e', d.servers, d.queries)
    ensures Ok(d.(table := d.table[i := e']))
  {
    hide Pending, AsksFor, Count, Distinct;
    SameDutyPending(d, i, e');
  }

  /** The entry i has come to an end. */
  lemma EndsPending(d: Resolver, i: nat, e': Entry)
    requires i < |d.table| && d.table[i].state == Asking && e'.state != Asking && Distinct(d)
    ensures forall q :: Pending(d.(table := d.table[i := e']), q) == (Pending(d, q) && q != d.table[i].arg)
    ensures Pending(d, d.table[i].arg) && Distinct(d.(table := d.table[i := e']))
  {
    var d' := d.(table := d.table[i := e']);
    var a := d.table[i].arg;
    assert AsksFor(d, i, a);
    assert forall j, q :: AsksFor(d', j, q) == (AsksFor(d, j, q) && j != i);
    forall q
      ensures Pending(d', q) == (Pending(d, q) && q != a)
    {
      if Pending(d, q) && q != a {
        var j :| AsksFor(d, j, q);
        assert j != i;
        assert AsksFor(d', j, q);
      }
      if Pending(d', q) {
        var j :| AsksFor(d', j, q);
        assert AsksFor(d, j, q);
      }
    }
  }

  lemma Ends(d: Resolver, i: nat, e': Entry, answer: Option<nat>)
    requires Ok(d) && i < |d.table| && d.table[i].state == Asking && (e'.state == Done || e'.state == Unused)
    ensures Ok(d.(table := d.table[i := e'], log := d.log + Calls(d.table[i], answer)))
  {
    hide Pending, AsksFor, Count, Distinct, Calls;
    var e := d.table[i];
    EndsPending(d, i, e');
    var d' := d.(table := d.table[i := e'], log := d.log + Calls(e, answer));
    forall q | 0 <= q < |d.queries|
      ensures Count(d'.log, q) == if d.queries[q].provided && !Pending(d', q) then 1 else 0
    {
      CountCalls(d.log, e, answer, q);
      SamePending(d.(table := d.table[i := e']), d', q);
    }
    SameDistinct(d.(table := d.table[i := e']), d');
    CallsNamed(d, i, answer);
  }

  lemma SamePending(a: Resolver, b: Resolver, q: nat)
    requires a.table == b.table
    ensures Pending(a, q) == Pending(b, q)
  {
    assert forall i :: AsksFor(a, i, q) == AsksFor(b, i, q);
  }

  lemma SameDistinct(a: Resolver, b: Resolver)
    requires a.table == b.table
    ensures Distinct(a) == Distinct(b)
  {
    assert forall i, q :: AsksFor(a, i, q) == AsksFor(b, i, q);
  }

  lemma CallsNamed(d: Resolver, i: nat, answer: Option<nat>)
    requires EntriesOk(d) && LogOk(d) && i < |d.table| && d.table[i].state == Asking
    ensures LogOk(d.(log := d.log + Calls(d.table[i], answer)))
  {
    assert EntryOk(d.table[i], d.servers, d.queries);
  }

  /** A packet more. */
  lemma Posted(d: Resolver, p: Packet)
    requires Ok(d) && p.server != 0 && p.id < DNS_TABLE_SIZE
    ensures Ok(d.(sent := d.sent + [p]))
  {
    hide Count, AsksFor, EntryOk;
    var d' := d.(sent := d.sent + [p]);
    forall q
      ensures Pending(d, q) == Pending(d', q)
    {
      SamePending(d, d', q);
    }
    SameDistinct(d, d');
  }

  lemma CheckGoesOn(e: Entry, servers: seq<nat>, queries: seq<Query>)
    requires EntryOk(e, servers, queries) && !TimesOut(e, servers)
    ensures SameDuty(e, Check(e, servers)) && EntryOk(Check(e, servers), servers, queries)
    ensures Sends(e) ==> ServerAt(servers, Check(e, servers).numdns) != 0
  {
  }

  lemma CheckKeeps(d: Resolver, i: nat)
    requires Ok(d) && i < |d.table|
    ensures Ok(CheckEntry(d, i))
    ensures CheckEntry(d, i).queries == d.queries && CheckEntry(d, i).servers == d.servers
    ensures |CheckEntry(d, i).table| == |d.table|
  {
    hide Distinct, CalledOnce, LogOk, Calls, EntryOk, Check, TimesOut, Sends;
    var e := d.table[i];
    if TimesOut(e, d.servers) {
      TimeOutEnds(e, d.servers);
      Ends(d, i, Check(e, d.servers), None);
    } else {
      CheckGoesOn(e, d.servers, d.queries);
      GoesOn(d, i, Check(e, d.servers));
      if Sends(e) {
        Posted(d.(table := d.table[i := Check(e, d.servers)]), Packet(ServerAt(d.servers, Check(e, d.servers).numdns), i));
      }
    }
  }

  lemma TimeOutEnds(e: Entry, servers: seq<nat>)
    requires TimesOut(e, servers)
    ensures e.state == Asking && Check(e, servers).state == Unused && !Sends(e)
  {
  }

  lemma {:induction false} TickKeeps(d: Resolver, i: nat)
    requires Ok(d) && i <= |d.table|
    ensures Ok(CheckFrom(d, i))
    ensures CheckFrom(d, i).queries == d.queries && CheckFrom(d, i).servers == d.servers
    decreases |d.table| - i
  {
    hide Ok, CheckEntry;
    if i < |d.table| {
      CheckKeeps(d, i);
      TickKeeps(CheckEntry(d, i), i + 1);
    }
  }

  lemma AnswerKeeps(d: Resolver, id: nat, reply: Reply)
    requires Ok(d)
    ensures Ok(Answered(d, id, reply))
  {
    hide Ok, Calls;
    if reply != Unusable && id < |d.table| && d.table[id].state == Asking {
      var e := d.table[id];
      if reply.Address? {
        Ends(d, id, Cached(e, reply.ttl, reply.ipaddr), Some(reply.ipaddr));
      } else {
        Ends(d, id, e.(state := Unused, found := false), None);
      }
    }
  }

  /** A new query gets an entry that is unused or done: no query that is pending loses its entry. */
  lemma SlotIsFree(d: Resolver)
    ensures Slot(d) != None ==> Slot(d).value < |d.table| && d.table[Slot(d).value].state in {Unused, Done}
    ensures Slot(d) == None ==> forall i :: 0 <= i < |d.table| ==> d.table[i].state != Unused
  {
  }

  lemma EnqueueKeeps(d: Resolver, name: string, provided: bool)
    requires Ok(d)
    ensures Ok(Enqueued(d, name, provided))
  {
    hide Ok, CheckEntry, Filled, Slot;
    SlotIsFree(d);
    if Slot(d) != None {
      Begins(d, Slot(d).value, name, provided);
    }
  }

  /** What dns_enqueue leaves in the entry. */
  function Started(e: Entry, seqno: U8, provided: bool, arg: nat, name: string): (r: Entry) {
    e.(state := Asking, seqno := seqno, found := provided, arg := arg, name := name, numdns := 0, tmr := 1, retries := 0)
  }

  lemma FilledChecked(d: Resolver, i: nat, name: string, provided: bool)
    requires i < |d.table|
    ensures CheckEntry(Filled(d, i, name, provided), i) ==
            d.(table := d.table[i := Started(d.table[i], d.seqno, provided, |d.queries|, Shortened(name))],
               seqno := Next8(d.seqno), queries := d.queries + [Query(Shortened(name), provided)],
               sent := d.sent + [Packet(ServerAt(d.servers, 0), i)])
  {
  }

  lemma BeginsPending(d: Resolver, d': Resolver, i: nat, e': Entry)
    requires EntriesOk(d) && Distinct(d) && i < |d.table| && d.table[i].state != Asking
    requires d'.table == d.table[i := e'] && e'.state == Asking && e'.arg == |d.queries|
    ensures forall q :: q != e'.arg ==> Pending(d', q) == Pending(d, q)
    ensures Pending(d', e'.arg) && Distinct(d')
  {
    hide EntryOk;
    assert AsksFor(d', i, e'.arg);
    forall j: nat, q: nat | AsksFor(d, j, q)
      ensures q < |d.queries| && j != i
    {
      assert EntryOk(d.table[j], d.servers, d.queries);
      ArgBelow(d.table[j], d.servers, d.queries);
    }
    assert forall j, q :: AsksFor(d', j, q) == (AsksFor(d, j, q) || (j == i && q == e'.arg));
    forall q | q != e'.arg
      ensures Pending(d', q) == Pending(d, q)
    {
      if Pending(d, q) {
        var j :| AsksFor(d, j, q);
        assert AsksFor(d', j, q);
      }
    }
  }

  lemma ArgBelow(e: Entry, servers: seq<nat>, queries: seq<Query>)
    requires EntryOk(e, servers, queries) && e.state == Asking
    ensures e.arg < |queries|
  {
  }

  /** A query that was never accepted has not been called back. */
  lemma {:induction false} CountNew(log: seq<Callback>, q: nat)
    requires forall k :: 0 <= k < |log| ==> log[k].arg < q
    ensures Count(log, q) == 0
  {
    if log != [] {
      CountNew(log[..|log| - 1], q);
    }
  }

  lemma EntriesBegin(d: Resolver, i: nat, e': Entry, query: Query)
    requires EntriesOk(d) && i < |d.table|
    requires e'.state == Asking && e'.arg == |d.queries| && query == Query(e'.name, e'.found)
    requires e'.tmr == 1 && e'.retries == 0 && e'.numdns == 0
    ensures EntriesOk(d.(table := d.table[i := e'], queries := d.queries + [query]))
  {
    var t, qs := d.table[i := e'], d.queries + [query];
    forall k | 0 <= k < |t|
      ensures EntryOk(t[k], d.servers, qs)
    {
      assert EntryOk(d.table[k], d.servers, d.queries);
    }
  }

  lemma Begins(d: Resolver, i: nat, name: string, provided: bool)
    requires Ok(d) && i < |d.table| && d.table[i].state in {Unused, Done}
    ensures Ok(CheckEntry(Filled(d, i, name, provided), i))
  {
    hide Pending, AsksFor, Count, Distinct, EntryOk, CheckEntry, Filled, Shortened;
    var e' := Started(d.table[i], d.seqno, provided, |d.queries|, Shortened(name));
    var query := Query(Shortened(name), provided);
    FilledChecked(d, i, name, provided);
    var d' := d.(table := d.table[i := e'], seqno := Next8(d.seqno), queries := d.queries + [query],
                 sent := d.sent + [Packet(ServerAt(d.servers, 0), i)]);
    BeginsPending(d, d', i, e');
    EntriesBegin(d, i, e', query);
    CountNew(d.log, |d.queries|);
  }

  lemma ServerKeeps(d: Resolver, numdns: nat, address: nat)
    requires Ok(d)
    ensures Ok(ServerSet(d, numdns, address))
  {
    hide Count, AsksFor, LogOk;
    var d' := ServerSet(d, numdns, address);
    forall q
      ensures Pending(d, q) == Pending(d', q)
    {
      SamePending(d, d', q);
    }
    SameDistinct(d, d');
    LogServers(d, d');
  }

  lemma LogServers(d: Resolver, d': Resolver)
    requires LogOk(d) && d'.log == d.log && d'.sent == d.sent && d'.queries == d.queries
    ensures LogOk(d')
  {
  }

  lemma StepKeeps(d: Resolver, s: Step)
    requires Ok(d)
    ensures Ok(Do(d, s))
  {
    hide Ok, CheckFrom, Answered, Enqueued, ServerSet;
    match s
    case Ask(name, provided) => EnqueueKeeps(d, name, provided);
    case Tick => UnfoldOk(d); TickKeeps(d, 0);
    case Receive(id, reply) => AnswerKeeps(d, id, reply);
    case SetServer(numdns, address) => ServerKeeps(d, numdns, address);
  }

  lemma UnfoldOk(d: Resolver)
    requires Ok(d)
    ensures EntriesOk(d) && Distinct(d) && CalledOnce(d) && LogOk(d)
  {
  }

  /**
   * In every run each accepted query with a callback is called back exactly once if it is no longer pending
   * and not before, under the name that was asked for.
   */
  lemma {:induction false} RunCallsOnce(d: Resolver, run: seq<Step>)
    requires Ok(d)
    ensures Ok(After(d, run))
    decreases |run|
  {
    hide Ok, Do;
    if run != [] {
      StepKeeps(d, run[0]);
      RunCallsOnce(Do(d, run[0]), run[1..]);
    }
  }

  // ----- how long it takes

  /** Ticks for one server: its tries are 1, 1, 2, .., R - 1 ticks apart. */
  const ROUND: nat := 1 + DNS_MAX_RETRIES * (DNS_MAX_RETRIES - 1) / 2

  /** Ticks after the running one until the last try with a server has failed. */
  function Later(retries: nat): (n: nat)
    decreases DNS_MAX_RETRIES - retries
  {
    if retries + 1 >= DNS_MAX_RETRIES then 0 else retries + 1 + Later(retries + 1)
  }

  /** Ticks for the servers after server n that will be turned to. */
  function Further(n: nat, servers: seq<nat>): (t: nat)
    decreases DNS_MAX_SERVERS - n
  {
    if n + 1 < DNS_MAX_SERVERS && ServerAt(servers, n + 1) != 0 then ROUND + Further(n + 1, servers) else 0
  }

  /** Ticks until the query is given up if no answer comes. */
  function TicksLeft(e: Entry, servers: seq<nat>): (t: nat) {
    e.tmr + Later(e.retries) + Further(e.numdns, servers)
  }

  /** The same if all further servers should be set. */
  function MostTicks(e: Entry): (t: nat)
    requires e.numdns < DNS_MAX_SERVERS
  {
    e.tmr + Later(e.retries) + ROUND * (DNS_MAX_SERVERS - 1 - e.numdns)
  }

  function Ticks(run: seq<Step>): (n: nat) {
    if run == [] then 0 else (if run[0] == Tick then 1 else 0) + Ticks(run[1..])
  }

  lemma RoundIsSeven()
    ensures ROUND == 7 && Later(0) == 6 && Later(1) == 5 && Later(2) == 3 && Later(3) == 0
  {
  }

  lemma MostBound(e: Entry, servers: seq<nat>, queries: seq<Query>)
    requires EntryOk(e, servers, queries) && e.state == Asking
    ensures TicksLeft(e, servers) <= MostTicks(e) <= ROUND * DNS_MAX_SERVERS
  {
    RoundIsSeven();
  }

  /** The measure: a tick brings a query one tick nearer to its end, also when it turns to another server. */
  lemma CheckCounts(e: Entry, servers: seq<nat>, queries: seq<Query>)
    requires EntryOk(e, servers, queries) && e.state == Asking
    ensures TimesOut(e, servers) <==> TicksLeft(e, servers) == 1
    ensures TicksLeft(e, servers) > 0
    ensures !TimesOut(e, servers) ==> TicksLeft(Check(e, servers), servers) == TicksLeft(e, servers) - 1
    ensures !TimesOut(e, servers) ==> MostTicks(Check(e, servers)) == MostTicks(e) - 1
  {
    RoundIsSeven();
  }

  lemma {:induction false} TickEach(d: Resolver, i: nat, k: nat)
    requires i <= |d.table| && k < |d.table|
    ensures var r := CheckFrom(d, i);
            && |r.table| == |d.table| && r.servers == d.servers && r.queries == d.queries
            && r.table[k] == if k < i then d.table[k] else Check(d.table[k], d.servers)
    decreases |d.table| - i
  {
    hide Check, TimesOut, Sends, Calls;
    if i < |d.table| {
      TickEach(CheckEntry(d, i), i + 1, k);
    }
  }

  /** What a step does with entry k. */
  function EntryAfter(d: Resolver, s: Step, k: nat): (e: Entry)
    requires k < |d.table|
  {
    match s
    case Ask(name, provided) =>
      if Slot(d) == Some(k) then Started(d.table[k], d.seqno, provided, |d.queries|, Shortened(name)) else d.table[k]
    case Tick => Check(d.table[k], d.servers)
    case Receive(id, reply) =>
      if id != k || reply == Unusable || d.table[k].state != Asking then d.table[k]
      else if reply.Address? then Cached(d.table[k], reply.ttl, reply.ipaddr)
      else d.table[k].(state := Unused, found := false)
    case SetServer(_, _) => d.table[k]
  }

  lemma EachEntry(d: Resolver, s: Step, k: nat)
    requires k < |d.table|
    ensures |Do(d, s).table| == |d.table| && Do(d, s).table[k] == EntryAfter(d, s, k)
  {
    hide Check, CheckEntry, Filled, Slot, Started, Cached, CheckFrom, Calls;
    match s
    case Ask(name, provided) =>
      SlotIsFree(d);
      if Slot(d) != None {
        FilledChecked(d, Slot(d).value, name, provided);
      }
    case Tick => TickEach(d, 0, k);
    case Receive(_, _) =>
    case SetServer(_, _) =>
  }

  /** Only a query that is accepted now begins to ask. */
  lemma AskingBefore(d: Resolver, s: Step, k: nat)
    requires EntriesOk(d) && k < |d.table| && EntryAfter(d, s, k).state == Asking
    ensures EntryAfter(d, s, k).arg == |d.queries| || (d.table[k].state == Asking && d.table[k].arg == EntryAfter(d, s, k).arg)
  {
    hide Slot;
    assert EntryOk(d.table[k], d.servers, d.queries);
  }

  lemma {:induction false} QueriesGrow(d: Resolver, s: Step)
    requires Ok(d)
    ensures |Do(d, s).queries| >= |d.queries| && Do(d, s).queries[..|d.queries|] == d.queries
  {
    hide Ok, CheckFrom, CheckEntry, Filled, Slot, Calls;
    match s
    case Ask(name, provided) =>
      SlotIsFree(d);
      if Slot(d) != None {
        FilledChecked(d, Slot(d).value, name, provided);
      }
    case Tick => UnfoldOk(d); TickKeeps(d, 0);
    case Receive(_, _) =>
    case SetServer(_, _) =>
  }

  /** A query that is over does not come back. */
  lemma StaysOver(d: Resolver, s: Step, q: nat)
    requires Ok(d) && q < |d.queries| && !Pending(d, q)
    ensures !Pending(Do(d, s), q)
  {
    hide Ok, Do, EntryAfter, Distinct, CalledOnce, LogOk;
    UnfoldOk(d);
    forall k: nat
      ensures !AsksFor(Do(d, s), k, q)
    {
      if k < |d.table| {
        EachEntry(d, s, k);
        if EntryAfter(d, s, k).state == Asking {
          AskingBefore(d, s, k);
          assert !AsksFor(d, k, q);
        }
      } else {
        EachEntry(d, s, 0);
      }
    }
  }

  /** A pending query keeps its entry; if that stops asking the query is over. */
  lemma KeepsEntry(d: Resolver, s: Step, i: nat, q: nat)
    requires Ok(d) && AsksFor(d, i, q)
    ensures q < |d.queries| && i < |Do(d, s).table| && Do(d, s).table[i] == EntryAfter(d, s, i)
    ensures EntryAfter(d, s, i).state == Asking ==> AsksFor(Do(d, s), i, q)
    ensures EntryAfter(d, s, i).state != Asking ==> !Pending(Do(d, s), q)
  {
    hide Ok, Do, EntryAfter, CalledOnce, LogOk;
    UnfoldOk(d);
    assert EntryOk(d.table[i], d.servers, d.queries);
    EachEntry(d, s, i);
    if EntryAfter(d, s, i).state == Asking {
      AskingStays(d, s, i);
    } else {
      forall k: nat
        ensures !AsksFor(Do(d, s), k, q)
      {
        if k < |d.table| {
          EachEntry(d, s, k);
          if EntryAfter(d, s, k).state == Asking {
            AskingBefore(d, s, k);
            assert AsksFor(d, k, q) ==> k == i;
          }
        }
      }
    }
  }

  lemma AskingStays(d: Resolver, s: Step, i: nat)
    requires i < |d.table| && d.table[i].state == Asking && EntryAfter(d, s, i).state == Asking
    ensures EntryAfter(d, s, i).arg == d.table[i].arg
    ensures EntryAfter(d, s, i) == if s == Tick then Check(d.table[i], d.servers) else d.table[i]
  {
    hide Slot;
    SlotIsFree(d);
  }

  /** However the run goes, a pending query is over after MostTicks ticks at most. */
  lemma {:induction false} PendingEnds(d: Resolver, run: seq<Step>, i: nat, q: nat)
    requires Ok(d) && AsksFor(d, i, q) && Ticks(run) >= MostTicks(d.table[i])
    ensures !Pending(After(d, run), q)
    decreases |run|
  {
    hide Ok, Do, EntryAfter, MostTicks, Check;
    UnfoldOk(d);
    var e := d.table[i];
    assert EntryOk(e, d.servers, d.queries);
    CheckCounts(e, d.servers, d.queries);
    MostPositive(e);
    var s := run[0];
    StepKeeps(d, s);
    KeepsEntry(d, s, i, q);
    if EntryAfter(d, s, i).state == Asking {
      AskingStays(d, s, i);
      if s == Tick {
        TimedOutStops(e, d.servers);
      }
      PendingEnds(Do(d, s), run[1..], i, q);
    } else {
      QueriesGrow(d, s);
      OverStays(Do(d, s), run[1..], q);
    }
  }

  lemma MostPositive(e: Entry)
    requires e.numdns < DNS_MAX_SERVERS && e.tmr > 0
    ensures MostTicks(e) > 0
  {
  }

  lemma TimedOutStops(e: Entry, servers: seq<nat>)
    requires e.state == Asking
    ensures Check(e, servers).state == Asking <==> !TimesOut(e, servers)
  {
  }

  lemma {:induction false} OverStays(d: Resolver, run: seq<Step>, q: nat)
    requires Ok(d) && q < |d.queries| && !Pending(d, q)
    ensures !Pending(After(d, run), q) && |After(d, run).queries| > q && After(d, run).queries[q] == d.queries[q]
    decreases |run|
  {
    hide Ok, Do, Pending;
    if run != [] {
      StepKeeps(d, run[0]);
      StaysOver(d, run[0], q);
      QueriesGrow(d, run[0]);
      OverStays(Do(d, run[0]), run[1..], q);
    }
  }

  lemma {:induction false} QueriesStay(d: Resolver, run: seq<Step>, q: nat)
    requires Ok(d) && q < |d.queries|
    ensures |After(d, run).queries| > q && After(d, run).queries[q] == d.queries[q]
    decreases |run|
  {
    hide Ok, Do;
    if run != [] {
      StepKeeps(d, run[0]);
      QueriesGrow(d, run[0]);
      QueriesStay(Do(d, run[0]), run[1..], q);
    }
  }

  /**
   * Every accepted query with a callback has been called back exactly once after any run with
   * (1 + R (R - 1) / 2) S ticks, R tries with each of S servers, whatever else happens in it.
   */
  lemma EveryQueryCalledBack(d: Resolver, run: seq<Step>, q: nat)
    requires Ok(d) && q < |d.queries| && d.queries[q].provided && Ticks(run) >= ROUND * DNS_MAX_SERVERS
    ensures Count(After(d, run).log, q) == 1
  {
    hide Count, AsksFor, MostTicks;
    if Pending(d, q) {
      var i: nat :| AsksFor(d, i, q);
      AsksAt(d, i, q);
      MostBound(d.table[i], d.servers, d.queries);
      PendingEnds(d, run, i, q);
    } else {
      OverStays(d, run, q);
    }
    QueriesStay(d, run, q);
    RunCallsOnce(d, run);
    UnfoldOk(After(d, run));
  }

  lemma AsksAt(d: Resolver, i: nat, q: nat)
    requires Ok(d) && AsksFor(d, i, q)
    ensures i < |d.table| && d.table[i].state == Asking && EntryOk(d.table[i], d.servers, d.queries)
  {
  }

  // ----- when nothing is heard

  /** No packet about entry i can be used, and the servers stay as they are. */
  predicate Silent(run: seq<Step>, i: nat) {
    forall k :: 0 <= k < |run| ==> !run[k].SetServer? && (run[k].Receive? && run[k].id == i ==> run[k].reply == Unusable)
  }

  /** Without an answer the query is given up exactly TicksLeft ticks from now. */
  lemma {:induction false} GivenUpExactly(d: Resolver, run: seq<Step>, i: nat, q: nat)
    requires Ok(d) && AsksFor(d, i, q) && Silent(run, i)
    ensures Pending(After(d, run), q) <==> Ticks(run) < TicksLeft(d.table[i], d.servers)
    decreases |run|
  {
    hide Ok, Do, TicksLeft, Check;
    UnfoldOk(d);
    var e := d.table[i];
    assert EntryOk(e, d.servers, d.queries);
    CheckCounts(e, d.servers, d.queries);
    if run == [] {
      assert Pending(d, q);
    } else {
      var s := run[0];
      StepKeeps(d, s);
      KeepsEntry(d, s, i, q);
      SilentStep(d, s, i);
      assert Silent(run[1..], i) by { assert forall k :: 0 <= k < |run[1..]| ==> run[1..][k] == run[k + 1]; }
      if EntryAfter(d, s, i).state == Asking {
        AskingStays(d, s, i);
        GivenUpExactly(Do(d, s), run[1..], i, q);
      } else {
        QueriesGrow(d, s);
        OverStays(Do(d, s), run[1..], q);
      }
    }
  }

  lemma SilentStep(d: Resolver, s: Step, i: nat)
    requires Ok(d) && i < |d.table| && d.table[i].state == Asking && Silent([s], i)
    ensures Do(d, s).servers == d.servers
    ensures EntryAfter(d, s, i).state == Asking <==> !(s == Tick && TimesOut(d.table[i], d.servers))
  {
    hide Slot, CheckFrom, CheckEntry, Filled, TimesOut, Check, Ok;
    assert [s][0] == s;
    SlotIsFree(d);
    match s
    case Ask(name, provided) =>
      if Slot(d) != None {
        FilledChecked(d, Slot(d).value, name, provided);
      }
    case Tick =>
      UnfoldOk(d);
      TickKeeps(d, 0);
      TimedOutStops(d.table[i], d.servers);
    case Receive(_, _) =>
  }

  /** Servers set from the first one on without a gap. */
  function Usable(servers: seq<nat>): (n: nat) {
    if ServerAt(servers, 0) == 0 then 0 else if ServerAt(servers, 1) == 0 then 1 else 2
  }

  /** A new query has a full round for each of those. */
  lemma QueryTakes(d: Resolver, name: string, provided: bool)
    requires Ok(d) && Slot(d) != None
    ensures var d' := Enqueued(d, name, provided); var i := Slot(d).value;
            && AsksFor(d', i, |d.queries|) && d'.queries == d.queries + [Query(Shortened(name), provided)]
            && TicksLeft(d'.table[i], d'.servers) == ROUND * Usable(d'.servers)
  {
    hide CheckEntry, Filled, Slot;
    SlotIsFree(d);
    FilledChecked(d, Slot(d).value, name, provided);
    RoundIsSeven();
  }

  // ----- what a callback says

  /** Why c is called in step s: an answer for its entry, or the end of the last try. */
  ghost predicate Caused(d: Resolver, s: Step, i: nat, c: Callback) {
    && AsksFor(d, i, c.arg) && d.table[i].name == c.name && d.table[i].found
    && match c.answer
       case Some(a) => s.Receive? && s.id == i && s.reply.Address? && s.reply.ipaddr == a
       case None => (s.Receive? && s.id == i && s.reply == Failed) || (s == Tick && TimesOut(d.table[i], d.servers))
  }

  ghost predicate HasCause(d: Resolver, s: Step, c: Callback) {
    exists i :: Caused(d, s, i, c)
  }

  /** after adds callbacks to before, all with a cause in step s. */
  ghost predicate AddsCaused(d: Resolver, s: Step, before: seq<Callback>, after: seq<Callback>) {
    before <= after && forall k :: |before| <= k < |after| ==> HasCause(d, s, after[k])
  }

  lemma AddsTwice(d: Resolver, s: Step, l0: seq<Callback>, l1: seq<Callback>, l2: seq<Callback>)
    requires AddsCaused(d, s, l0, l1) && AddsCaused(d, s, l1, l2)
    ensures AddsCaused(d, s, l0, l2)
  {
    hide HasCause;
    forall k | |l0| <= k < |l2|
      ensures HasCause(d, s, l2[k])
    {
      if k < |l1| {
        assert l2[k] == l1[k];
      }
    }
  }

  lemma CheckCalls(d: Resolver, i: nat, d0: Resolver)
    requires i < |d.table| == |d0.table| && d.servers == d0.servers && d.table[i] == d0.table[i]
    ensures AddsCaused(d0, Tick, d.log, CheckEntry(d, i).log)
  {
    hide Check, Sends;
    if TimesOut(d.table[i], d.servers) && d.table[i].found {
      assert Caused(d0, Tick, i, Callback(d.table[i].name, None, d.table[i].arg));
    }
  }

  lemma {:induction false} TickCalls(d: Resolver, i: nat, d0: Resolver)
    requires i <= |d.table| == |d0.table| && d.servers == d0.servers
    requires forall k :: i <= k < |d.table| ==> d.table[k] == d0.table[k]
    ensures AddsCaused(d0, Tick, d.log, CheckFrom(d, i).log)
    decreases |d.table| - i
  {
    hide Check, Sends, TimesOut, HasCause, Calls;
    if i < |d.table| {
      CheckCalls(d, i, d0);
      TickCalls(CheckEntry(d, i), i + 1, d0);
      AddsTwice(d0, Tick, d.log, CheckEntry(d, i).log, CheckFrom(d, i).log);
    }
  }

  lemma AnswerCalls(d: Resolver, id: nat, reply: Reply)
    ensures AddsCaused(d, Receive(id, reply), d.log, Answered(d, id, reply).log)
  {
    if reply != Unusable && id < |d.table| && d.table[id].state == Asking && d.table[id].found {
      var c := Callback(d.table[id].name, if reply.Address? then Some(reply.ipaddr) else None, d.table[id].arg);
      assert Answered(d, id, reply).log == d.log + [c];
      assert Caused(d, Receive(id, reply), id, c);
    }
  }

  /** Callbacks are only added, and each has its cause: an address is reported only if a packet brought it. */
  lemma CallbacksHaveCauses(d: Resolver, s: Step)
    ensures AddsCaused(d, s, d.log, Do(d, s).log)
  {
    hide CheckFrom, Slot, CheckEntry, Filled, HasCause, Answered;
    match s
    case Ask(name, provided) =>
      SlotIsFree(d);
      if Slot(d) != None {
        FilledChecked(d, Slot(d).value, name, provided);
      }
    case Tick => TickCalls(d, 0, d);
    case Receive(id, reply) => AnswerCalls(d, id, reply);
    case SetServer(_, _) =>
  }

  // ----- the time to live

  /** No new query of the run takes entry i. */
  predicate NotTaken(d: Resolver, run: seq<Step>, i: nat)
    decreases |run|
  {
    run == [] || (!(run[0].Ask? && Slot(d) == Some(i)) && NotTaken(Do(d, run[0]), run[1..], i))
  }

  /** Ticks for which an answer is kept: its time to live, but 2^32 for a time to live of 0. */
  function KeptFor(ttl: U32): (n: nat) {
    if ttl == 0 then 0x1_0000_0000 else ttl
  }

  /** A step that does not take a done entry for a new query lets it age, and a tick only. */
  lemma DoneAges(d: Resolver, s: Step, i: nat)
    requires i < |d.table| && d.table[i].state == Done && !(s.Ask? && Slot(d) == Some(i))
    ensures var e, e' := d.table[i], EntryAfter(d, s, i);
            && e'.ipaddr == e.ipaddr && e'.name == e.name && (e'.state == Done || e'.state == Unused)
            && (e'.state == Done <==> (s == Tick ==> KeptFor(e.ttl) > 1))
            && (e'.state == Done ==> KeptFor(e'.ttl) == KeptFor(e.ttl) - if s == Tick then 1 else 0)
  {
    hide Slot;
  }

  /** A done entry is kept with its name and address for exactly so many ticks as long as no new query takes it. */
  lemma {:induction false} KeptExactly(d: Resolver, run: seq<Step>, i: nat)
    requires i < |d.table| && d.table[i].state == Done && NotTaken(d, run, i)
    ensures i < |After(d, run).table|
    ensures var e := After(d, run).table[i];
            && e.ipaddr == d.table[i].ipaddr && e.name == d.table[i].name
            && (e.state == Done <==> Ticks(run) < KeptFor(d.table[i].ttl))
    decreases |run|
  {
    hide Do, Slot, EntryAfter, KeptFor;
    if run != [] {
      EachEntry(d, run[0], i);
      DoneAges(d, run[0], i);
      if EntryAfter(d, run[0], i).state == Done {
        KeptExactly(Do(d, run[0]), run[1..], i);
      } else {
        UnusedStays(Do(d, run[0]), run[1..], i);
      }
    }
    assert KeptFor(d.table[i].ttl) >= 1 by { KeptSome(d.table[i].ttl); }
  }

  lemma KeptSome(ttl: U32)
    ensures KeptFor(ttl) >= 1
  {
  }

  lemma {:induction false} UnusedStays(d: Resolver, run: seq<Step>, i: nat)
    requires i < |d.table| && d.table[i].state == Unused && NotTaken(d, run, i)
    ensures i < |After(d, run).table| && After(d, run).table[i].state == Unused
    ensures After(d, run).table[i].ipaddr == d.table[i].ipaddr && After(d, run).table[i].name == d.table[i].name
    decreases |run|
  {
    hide Do, Slot;
    if run != [] {
      EachEntry(d, run[0], i);
      UnusedStays(Do(d, run[0]), run[1..], i);
    }
  }

  /**
   * An address that a packet brings for a pending query is kept with its name for exactly as many ticks as its
   * time to live, but at most DNS_MAX_TTL, says, as long as no new query takes its entry; 0 stands for 2^32.
   */
  lemma CachedExactly(d: Resolver, ttl: U32, ipaddr: nat, run: seq<Step>, i: nat)
    requires i < |d.table| && d.table[i].state == Asking
    requires NotTaken(Do(d, Receive(i, Address(ttl, ipaddr))), run, i)
    ensures var d' := After(d, [Receive(i, Address(ttl, ipaddr))] + run);
            && i < |d'.table| && d'.table[i].name == d.table[i].name && d'.table[i].ipaddr == ipaddr
            && (d'.table[i].state == Done <==>
                  Ticks(run) < if ttl == 0 then 0x1_0000_0000 else if ttl > DNS_MAX_TTL then DNS_MAX_TTL else ttl)
  {
    hide Do, NotTaken, EntryAfter;
    var s := Receive(i, Address(ttl, ipaddr));
    EachEntry(d, s, i);
    assert EntryAfter(d, s, i) == Cached(d.table[i], ttl, ipaddr) by { AnswerCaches(d, i, ttl, ipaddr); }
    assert ([s] + run)[1..] == run;
    KeptExactly(Do(d, s), run, i);
  }

  lemma AnswerCaches(d: Resolver, i: nat, ttl: U32, ipaddr: nat)
    requires i < |d.table| && d.table[i].state == Asking
    ensures EntryAfter(d, Receive(i, Address(ttl, ipaddr)), i) == Cached(d.table[i], ttl, ipaddr)
  {
  }

  // ----- when a query is refused

  /** The ages of done entries, as the scan computes them. */
  function Age(d: Resolver, i: nat): (a: int)
    requires i < |d.table|
  {
    d.seqno - d.table[i].seqno
  }

  lemma {:induction false} OldestFound(table: seq<Entry>, seqno: U8, n: nat)
    requires n <= |table|
    ensures var (k, age) := Oldest(table, seqno, n);
            && (forall j :: 0 <= j < n && table[j].state == Done ==> seqno - table[j].seqno <= age)
            && (age > 0 ==> k < n && table[k].state == Done && seqno - table[k].seqno == age)
            && (age == 0 ==> k == 0)
  {
    if n > 0 {
      OldestFound(table, seqno, n - 1);
    }
  }

  /**
   * A query is refused exactly when no entry is unused, no done entry looks older than the next query to the
   * scan, and the first entry is not done: the sequence numbers have wrapped, so done entries may go unseen.
   */
  lemma RefusedWhen(d: Resolver)
    requires |d.table| == DNS_TABLE_SIZE
    ensures Slot(d) == None <==>
              && (forall i :: 0 <= i < |d.table| ==> d.table[i].state != Unused)
              && (forall i :: 0 <= i < |d.table| && d.table[i].state == Done ==> Age(d, i) <= 0)
              && d.table[0].state != Done
  {
    OldestFound(d.table, d.seqno, |d.table|);
  }

  /** Three entries are asking, and one is done but bears the last sequence number before the wrap. */
  function Wrapped(): (d: Resolver) {
    var asking := Entry(Asking, 0, 1, 0, 252, 0, "a", 0, false, 0);
    Resolver([asking, asking.(arg := 1, seqno := 253), asking.(arg := 2, seqno := 254),
              Entry(Done, 0, 1, 0, 255, 60, "a", 7, false, 3)],
             [1, 0], 0, [Query("a", false), Query("a", false), Query("a", false), Query("a", false)], [], [])
  }

  /** A consistent table that refuses a query although its last entry is done and could be taken. */
  lemma RefusedWithRoom()
    ensures var d := Wrapped(); Ok(d) && Slot(d) == None && d.table[3].state == Done
  {
    hide Slot;
    var d := Wrapped();
    RefusedWhen(d);
    assert EntriesOk(d);
    assert CalledOnce(d) by {
      forall q: nat | q < |d.queries|
        ensures !d.queries[q].provided && Count(d.log, q) == 0
      {
      }
    }
  }
}

/** dns.c: the table and the servers, updated in place. */
module DnsClient {
  import opened DnsProtocol

  class Dns {
    const table: array<Entry>
    const servers: array<nat>
    var seqno: U8
    var queries: seq<Query>
    var log: seq<Callback>
    var sent: seq<Packet>

    ghost function Abs(): (d: Resolver)
      reads this, table, servers
    {
      Resolver(table[..], servers[..], seqno, queries, log, sent)
    }

    /** dns_init: an empty table and the default server. */
    constructor (server: nat)
      requires server != 0
      ensures fresh(table) && fresh(servers) && Ok(Abs())
      ensures table.Length == DNS_TABLE_SIZE && forall i :: 0 <= i < table.Length ==> table[i].state == Unused
      ensures servers[..] == [server, 0] && seqno == 0
      ensures queries == [] && log == [] && sent == []
    {
      table := new Entry[DNS_TABLE_SIZE](_ => Entry(Unused, 0, 0, 0, 0, 0, "", 0, false, 0));
      servers := new nat[DNS_MAX_SERVERS](n => if n == 0 then server else 0);
      seqno, queries, log, sent := 0, [], [], [];
    }

    method Callback(e: Entry, answer: Option<nat>)
      modifies this`log
      ensures log == old(log) + Calls(e, answer)
    {
      if e.found {
        log := log + [DnsProtocol.Callback(e.name, answer, e.arg)];
      }
    }

    /** dns_send */
    method Send(numdns: nat, i: nat)
      requires servers.Length == DNS_MAX_SERVERS && numdns < DNS_MAX_SERVERS
      modifies this`sent
      ensures sent == old(sent) + [Packet(servers[numdns], i)]
    {
      sent := sent + [Packet(servers[numdns], i)];
    }

    /** dns_check_entry */
    method CheckEntry(i: nat)
      requires i < table.Length && servers.Length == DNS_MAX_SERVERS
      requires table[i].state == Asking ==> table[i].numdns < DNS_MAX_SERVERS
      modifies this`log, this`sent, table
      ensures Abs() == DnsProtocol.CheckEntry(old(Abs()), i)
    {
      match table[i].state
      case New =>
        table[i] := table[i].(state := Asking, numdns := 0, tmr := 1, retries := 0);
        Send(table[i].numdns, i);
      case Asking =>
        table[i] := table[i].(tmr := Last8(table[i].tmr));
        if table[i].tmr == 0 {
          table[i] := table[i].(retries := Next8(table[i].retries));
          if table[i].retries == DNS_MAX_RETRIES {
            if table[i].numdns + 1 < DNS_MAX_SERVERS && servers[table[i].numdns + 1] != 0 {
              table[i] := table[i].(numdns := table[i].numdns + 1, tmr := 1, retries := 0);
            } else {
              Callback(table[i], None);
              table[i] := table[i].(state := Unused, found := false);
            }
          } else {
            table[i] := table[i].(tmr := table[i].retries);
            Send(table[i].numdns, i);
          }
        }
      case Done =>
        table[i] := table[i].(ttl := (table[i].ttl + 0xffff_ffff) % 0x1_0000_0000);
        if table[i].ttl == 0 {
          table[i] := table[i].(state := Unused, found := false);
        }
      case Unused =>
    }

    /** dns_tmr and dns_check_entries */
    method CheckEntries()
      requires Ok(Abs())
      modifies this`log, this`sent, table
      ensures Abs() == Do(old(Abs()), Tick) && Ok(Abs())
    {
      hide DnsProtocol.CheckEntry, Distinct, CalledOnce, LogOk;
      ghost var before := Abs();
      TickKeeps(Abs(), 0);
      var i := 0;
      while i < DNS_TABLE_SIZE
        invariant 0 <= i <= DNS_TABLE_SIZE && Ok(Abs()) && CheckFrom(Abs(), i) == CheckFrom(before, 0)
      {
        CheckKeeps(Abs(), i);
        assert EntryOk(Abs().table[i], Abs().servers, queries);
        CheckEntry(i);
        i := i + 1;
      }
    }

    /** dns_recv, once the packet has been read. */
    method Recv(id: nat, reply: Reply)
      requires Ok(Abs())
      modifies this`log, table
      ensures Abs() == Do(old(Abs()), Receive(id, reply)) && Ok(Abs())
    {
      hide Distinct, CalledOnce, LogOk, EntryOk;
      AnswerKeeps(Abs(), id, reply);
      if reply != Unusable && id < DNS_TABLE_SIZE && table[id].state == Asking {
        table[id] := table[id].(state := Done);
        match reply
        case Address(ttl, ipaddr) =>
          table[id] := table[id].(ttl := ttl);
          if table[id].ttl > DNS_MAX_TTL {
            table[id] := table[id].(ttl := DNS_MAX_TTL);
          }
          table[id] := table[id].(ipaddr := ipaddr);
          Callback(table[id], Some(table[id].ipaddr));
        case Failed =>
          Callback(table[id], None);
          table[id] := table[id].(state := Unused, found := false);
      }
    }

    /** The scan of dns_enqueue for an entry. */
    method FindSlot() returns (slot: Option<nat>)
      requires table.Length == DNS_TABLE_SIZE
      ensures slot == Slot(Abs())
    {
      var i, lseq, lseqi := 0, 0, 0;
      while i < DNS_TABLE_SIZE && table[i].state != Unused
        invariant 0 <= i <= DNS_TABLE_SIZE && (lseqi, lseq) == Oldest(table[..], seqno, i)
        invariant FirstUnused(table[..], 0) == FirstUnused(table[..], i)
      {
        if table[i].state == Done && seqno - table[i].seqno > lseq {
          lseq, lseqi := seqno - table[i].seqno, i;
        }
        i := i + 1;
      }
      if i == DNS_TABLE_SIZE {
        if lseqi >= DNS_TABLE_SIZE || table[lseqi].state != Done {
          return None;
        }
        i := lseqi;
      }
      return Some(i);
    }

    /** dns_enqueue; false stands for ERR_MEM, true for ERR_INPROGRESS. */
    method Enqueue(name: string, provided: bool) returns (accepted: bool)
      requires Ok(Abs())
      modifies this, table
      ensures Abs() == Do(old(Abs()), Ask(name, provided)) && Ok(Abs())
      ensures accepted <==> Slot(old(Abs())) != None
    {
      hide Slot, Ok, DnsProtocol.CheckEntry;
      EnqueueKeeps(Abs(), name, provided);
      SlotIsFree(Abs());
      UnfoldOk(Abs());
      var slot := FindSlot();
      accepted := slot.Some?;
      if accepted {
        var i := slot.value;
        table[i] := table[i].(state := New, seqno := seqno, found := provided, arg := |queries|, name := Shortened(name));
        seqno := Next8(seqno);
        queries := queries + [Query(Shortened(name), provided)];
        CheckEntry(i);
      }
    }

    /** dns_setserver */
    method SetServer(numdns: nat, address: nat)
      requires Ok(Abs())
      modifies servers
      ensures Abs() == Do(old(Abs()), DnsProtocol.SetServer(numdns, address)) && Ok(Abs())
    {
      hide Distinct, CalledOnce, LogOk, EntryOk;
      ServerKeeps(Abs(), numdns, address);
      if numdns < DNS_MAX_SERVERS && address != 0 {
        servers[numdns] := address;
      }
    }
  }
}
