/** Which packets a query sends, and when, as long as nothing is heard. */
module DnsSchedule {
  import opened DnsProtocol

  /** The servers that packets about entry i went to, in order. */
  function About(sent: seq<Packet>, i: nat): (servers: seq<nat>) {
    if sent == [] then []
    else
      var p := sent[|sent| - 1];
      About(sent[..|sent| - 1], i) + if p.id == i then [p.server] else []
  }

  lemma AboutAppend(sent: seq<Packet>, p: Packet, i: nat)
    ensures About(sent + [p], i) == About(sent, i) + if p.id == i then [p.server] else []
  {
    assert (sent + [p])[..|sent|] == sent;
  }

  /** The tick after its acceptance that the try r of a query with server n is due on: 0, 1, 2, 4, .. of its round. */
  function DueTick(n: nat, r: nat): (t: nat) {
    ROUND * n + if r == 0 then 0 else 1 + r * (r - 1) / 2
  }

  predicate FirstDue(t: nat) {
    exists r :: 0 <= r < DNS_MAX_RETRIES && DueTick(0, r) == t
  }

  /** The first try with a further server is left out: turning to it takes the tick of that try. */
  predicate NextDue(t: nat) {
    exists r :: 1 <= r < DNS_MAX_RETRIES && DueTick(1, r) == t
  }

  /** The server asked on tick t after the acceptance of a query, if any. */
  function DueOn(servers: seq<nat>, t: nat): (s: seq<nat>) {
    if FirstDue(t) then [ServerAt(servers, 0)]
    else if Usable(servers) == 2 && NextDue(t) then [ServerAt(servers, 1)]
    else []
  }

  /** The servers asked after tick a up to tick b. */
  function Between(servers: seq<nat>, a: nat, b: nat): (s: seq<nat>)
    decreases b
  {
    if b <= a then [] else Between(servers, a, b - 1) + DueOn(servers, b)
  }

  lemma {:induction false} BetweenFirst(servers: seq<nat>, a: nat, b: nat)
    requires a < b
    ensures Between(servers, a, b) == DueOn(servers, a + 1) + Between(servers, a + 1, b)
    decreases b
  {
    hide DueOn;
    if a + 1 < b {
      BetweenFirst(servers, a, b - 1);
    }
  }

  /** How many ticks ago the query of entry e was accepted, if nothing has been heard. */
  function Elapsed(e: Entry, servers: seq<nat>): (t: int) {
    ROUND * Usable(servers) - TicksLeft(e, servers)
  }

  /** An entry that is asking sends on the next tick exactly if a try is due then. */
  lemma CheckSends(e: Entry, servers: seq<nat>, queries: seq<Query>)
    requires EntryOk(e, servers, queries) && e.state == Asking && ServerAt(servers, 0) != 0
    ensures 0 <= Elapsed(e, servers)
    ensures (if Sends(e) then [ServerAt(servers, Check(e, servers).numdns)] else []) == DueOn(servers, Elapsed(e, servers) + 1)
  {
    hide DueOn;
    RoundIsSeven();
    DueTicks(servers, Elapsed(e, servers) + 1);
  }

  lemma DueTicks(servers: seq<nat>, t: int)
    requires 0 <= t <= 14
    ensures FirstDue(t) <==> t in {0, 1, 2, 4}
    ensures NextDue(t) <==> t in {8, 9, 11}
    ensures DueOn(servers, t) == if t in {0, 1, 2, 4} then [ServerAt(servers, 0)]
                                 else if Usable(servers) == 2 && t in {8, 9, 11} then [ServerAt(servers, 1)] else []
  {
    DueTickValues();
  }

  lemma DueTickValues()
    ensures DueTick(0, 0) == 0 && DueTick(0, 1) == 1 && DueTick(0, 2) == 2 && DueTick(0, 3) == 4
    ensures DueTick(1, 1) == 8 && DueTick(1, 2) == 9 && DueTick(1, 3) == 11
  {
  }

  // ----- one step

  lemma CheckAbout(d: Resolver, i: nat, k: nat)
    requires i < |d.table|
    ensures About(CheckEntry(d, i).sent, k) ==
            About(d.sent, k) +
            if i == k && Sends(d.table[i]) then [ServerAt(d.servers, Check(d.table[i], d.servers).numdns)] else []
  {
    hide Check, Sends, TimesOut, Calls;
    AboutAppend(d.sent, Packet(ServerAt(d.servers, Check(d.table[i], d.servers).numdns), i), k);
  }

  lemma {:induction false} TickAbout(d: Resolver, i: nat, k: nat)
    requires i <= |d.table| && k < |d.table|
    ensures About(CheckFrom(d, i).sent, k) ==
            About(d.sent, k) +
            if i <= k && Sends(d.table[k]) then [ServerAt(d.servers, Check(d.table[k], d.servers).numdns)] else []
    decreases |d.table| - i
  {
    hide Check, Sends, TimesOut, Calls, About;
    if i < |d.table| {
      CheckAbout(d, i, k);
      TickAbout(CheckEntry(d, i), i + 1, k);
    }
  }

  /** The packets about entry k that a step adds. */
  lemma StepAbout(d: Resolver, s: Step, k: nat)
    requires k < |d.table|
    ensures About(Do(d, s).sent, k) ==
            About(d.sent, k) +
            match s
            case Ask(_, _) => if Slot(d) == Some(k) then [ServerAt(d.servers, 0)] else []
            case Tick => if Sends(d.table[k]) then [ServerAt(d.servers, Check(d.table[k], d.servers).numdns)] else []
            case _ => []
  {
    hide Check, Sends, CheckEntry, Filled, Slot, CheckFrom, Calls, About;
    match s
    case Ask(name, provided) =>
      SlotIsFree(d);
      if Slot(d) != None {
        FilledChecked(d, Slot(d).value, name, provided);
        AboutAppend(d.sent, Packet(ServerAt(d.servers, 0), Slot(d).value), k);
      }
    case Tick => TickAbout(d, 0, k);
    case Receive(_, _) =>
    case SetServer(_, _) =>
  }

  /** A step sends nothing about an entry that it leaves without a pending query, also if the query ends with it. */
  lemma IdleSendsNothing(d: Resolver, s: Step, k: nat)
    requires Ok(d) && k < |d.table| && (k < |Do(d, s).table| ==> Do(d, s).table[k].state != Asking)
    ensures About(Do(d, s).sent, k) == About(d.sent, k)
  {
    hide Do, Slot, About;
    UnfoldOk(d);
    assert EntryOk(d.table[k], d.servers, d.queries);
    StepAbout(d, s, k);
    EachEntry(d, s, k);
  }

  // ----- over runs

  /** As long as the query is pending, its entry has sent the packets that have become due, and no others. */
  lemma {:induction false} SentSince(d: Resolver, run: seq<Step>, i: nat, q: nat)
    requires Ok(d) && AsksFor(d, i, q) && Silent(run, i) && Ticks(run) < TicksLeft(d.table[i], d.servers)
    ensures var t := Elapsed(d.table[i], d.servers);
            t >= 0 && About(After(d, run).sent, i) == About(d.sent, i) + Between(d.servers, t, t + Ticks(run))
    decreases |run|
  {
    hide Ok, Do, TicksLeft, Check, About, DueOn, Usable, Sends;
    UnfoldOk(d);
    var e := d.table[i];
    assert EntryOk(e, d.servers, d.queries);
    CheckSends(e, d.servers, d.queries);
    if run != [] {
      var s := run[0];
      CheckCounts(e, d.servers, d.queries);
      StepKeeps(d, s);
      KeepsEntry(d, s, i, q);
      SilentStep(d, s, i);
      StepAbout(d, s, i);
      NotTaken(d, i);
      assert Silent(run[1..], i) by { assert forall k :: 0 <= k < |run[1..]| ==> run[1..][k] == run[k + 1]; }
      AskingStays(d, s, i);
      if s == Tick {
        BetweenFirst(d.servers, Elapsed(e, d.servers), Elapsed(e, d.servers) + Ticks(run));
      }
      SentSince(Do(d, s), run[1..], i, q);
    }
  }

  lemma NotTaken(d: Resolver, i: nat)
    requires i < |d.table| && d.table[i].state == Asking
    ensures Slot(d) != Some(i)
  {
    hide Slot;
    SlotIsFree(d);
  }

  /**
   * A query that hears nothing sends, on every tick of its life, a packet about its entry exactly if a try is due on it,
   * and to the server whose turn it is: tries 0 to R - 1 with the first server, and 1 to R - 1 with each further one.
   */
  lemma QuerySends(d: Resolver, name: string, provided: bool, run: seq<Step>)
    requires Ok(d) && Slot(d) != None && Silent(run, Slot(d).value) && Ticks(run) < ROUND * Usable(d.servers)
    ensures var i := Slot(d).value;
            About(After(Do(d, Ask(name, provided)), run).sent, i) ==
            About(d.sent, i) + [ServerAt(d.servers, 0)] + Between(d.servers, 0, Ticks(run))
  {
    hide CheckEntry, Filled, Slot, Usable, TicksLeft, Ok, About, DueOn;
    var i, d1 := Slot(d).value, Do(d, Ask(name, provided));
    SlotIsFree(d);
    QueryTakes(d, name, provided);
    FilledChecked(d, i, name, provided);
    StepKeeps(d, Ask(name, provided));
    StepAbout(d, Ask(name, provided), i);
    SentSince(d1, run, i, |d.queries|);
  }

  /** By the tick before it is given up a query has asked the first server R times, and each further one R - 1 times. */
  lemma AllTries(servers: seq<nat>)
    requires ServerAt(servers, 0) != 0
    ensures [ServerAt(servers, 0)] + Between(servers, 0, ROUND * Usable(servers) - 1) ==
            seq(DNS_MAX_RETRIES, _ => ServerAt(servers, 0)) +
            if Usable(servers) == 2 then seq(DNS_MAX_RETRIES - 1, _ => ServerAt(servers, 1)) else []
  {
    hide DueOn, FirstDue, NextDue;
    RoundIsSeven();
    forall t: nat | t <= 14
      ensures DueOn(servers, t) == if t in {0, 1, 2, 4} then [ServerAt(servers, 0)]
                                   else if Usable(servers) == 2 && t in {8, 9, 11} then [ServerAt(servers, 1)] else []
    {
      DueTicks(servers, t);
    }
    FirstRound(servers);
    if Usable(servers) == 2 {
      SecondRound(servers);
    }
  }

  lemma FirstRound(servers: seq<nat>)
    requires forall t: nat :: t <= 14 ==>
               DueOn(servers, t) == if t in {0, 1, 2, 4} then [ServerAt(servers, 0)]
                                    else if Usable(servers) == 2 && t in {8, 9, 11} then [ServerAt(servers, 1)] else []
    ensures Between(servers, 0, 6) == [ServerAt(servers, 0), ServerAt(servers, 0), ServerAt(servers, 0)]
  {
    hide DueOn, Usable, ServerAt;
    assert Between(servers, 0, 0) == [];
    assert Between(servers, 0, 1) == [ServerAt(servers, 0)];
    assert Between(servers, 0, 3) == [ServerAt(servers, 0), ServerAt(servers, 0)];
    assert Between(servers, 0, 5) == [ServerAt(servers, 0), ServerAt(servers, 0), ServerAt(servers, 0)];
  }

  lemma SecondRound(servers: seq<nat>)
    requires Usable(servers) == 2
    requires Between(servers, 0, 6) == [ServerAt(servers, 0), ServerAt(servers, 0), ServerAt(servers, 0)]
    requires forall t: nat :: t <= 14 ==>
               DueOn(servers, t) == if t in {0, 1, 2, 4} then [ServerAt(servers, 0)]
                                    else if Usable(servers) == 2 && t in {8, 9, 11} then [ServerAt(servers, 1)] else []
    ensures Between(servers, 0, 13) == Between(servers, 0, 6) + [ServerAt(servers, 1), ServerAt(servers, 1), ServerAt(servers, 1)]
  {
    hide DueOn, Usable, ServerAt;
    assert Between(servers, 0, 8) == Between(servers, 0, 6) + [ServerAt(servers, 1)];
    assert Between(servers, 0, 10) == Between(servers, 0, 6) + [ServerAt(servers, 1), ServerAt(servers, 1)];
    assert Between(servers, 0, 12) == Between(servers, 0, 6) + [ServerAt(servers, 1), ServerAt(servers, 1), ServerAt(servers, 1)];
  }

  // ----- which entry a query gets, and what it leaves there

  /**
   * A query takes the first unused entry; if there is none, it takes the place of a done one that is as old as any by its
   * sequence number, and the first of those.
   */
  lemma TakesOldest(d: Resolver)
    requires |d.table| == DNS_TABLE_SIZE && Slot(d) != None
    ensures var i := Slot(d).value;
            && i < |d.table|
            && if exists k :: 0 <= k < |d.table| && d.table[k].state == Unused
               then d.table[i].state == Unused && forall k :: 0 <= k < i ==> d.table[k].state != Unused
               else d.table[i].state == Done
                    && (forall k :: 0 <= k < |d.table| && d.table[k].state == Done && d.table[k].seqno < d.seqno ==>
                          d.table[k].seqno >= d.table[i].seqno)
                    && forall k :: 0 <= k < i && d.table[k].state == Done && d.table[k].seqno < d.seqno ==>
                         d.table[k].seqno > d.table[i].seqno
  {
    OldestIs(d.table, d.seqno, |d.table|);
  }

  lemma {:induction false} OldestIs(table: seq<Entry>, seqno: U8, n: nat)
    requires n <= |table|
    ensures var (k, age) := Oldest(table, seqno, n);
            && age >= 0 && (age > 0 ==> k < n && table[k].state == Done && age == seqno - table[k].seqno)
            && (age == 0 ==> k == 0)
            && (forall i :: 0 <= i < n && table[i].state == Done ==> seqno - table[i].seqno <= age)
            && (forall i :: 0 <= i < k && table[i].state == Done ==> seqno - table[i].seqno < age)
  {
    if n > 0 {
      OldestIs(table, seqno, n - 1);
    }
  }

  /** What an accepted query leaves in its entry and in the table; a refused one leaves nothing. */
  lemma AskFills(d: Resolver, name: string, provided: bool)
    requires Ok(d)
    ensures var d', n := Do(d, Ask(name, provided)), if |name| < 256 then name else name[..255];
            if Slot(d) == None then d' == d
            else
              var i := Slot(d).value;
              && |d'.table| == |d.table| && i < |d.table| && d'.table == d.table[i := d'.table[i]]
              && d'.table[i].state == Asking && d'.table[i].name == n && d'.table[i].found == provided
              && d'.table[i].seqno == d.seqno && d'.seqno == (d.seqno + 1) % 256
              && d'.queries == d.queries + [Query(n, provided)] && d'.table[i].arg == |d.queries|
              && d'.log == d.log && d'.servers == d.servers
  {
    hide CheckEntry, Filled, Slot;
    SlotIsFree(d);
    if Slot(d) != None {
      FilledChecked(d, Slot(d).value, name, provided);
    }
  }

  /** A server is set exactly if its number is below DNS_MAX_SERVERS and the address is one; nothing else changes. */
  lemma ServerSets(d: Resolver, n: nat, address: nat)
    requires Ok(d)
    ensures Do(d, SetServer(n, address)) == if n < 2 && address != 0 then d.(servers := d.servers[n := address]) else d
  {
    UnfoldOk(d);
  }
}
