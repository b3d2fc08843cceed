/** The kernel's ordered lists as values: priority order and remaining ticks. */
module RtxOrder {
  import opened Links
  import opened TaskLists

  const NO_TIMEOUT: nat := 0xffff

  /** Conversion to an unsigned 16-bit field. */
  function U16(x: int): (r: nat) {
    x % 0x10000
  }

  lemma SameRemainder(x: int, q: int)
    ensures U16(x + 0x1_0000 * q) == U16(x)
  {
  }

  ghost predicate Known<V>(m: map<Ptr, V>, s: seq<Ptr>) {
    forall i :: 0 <= i < |s| ==> s[i] in m
  }

  /** Priorities never increase along the list. */
  ghost predicate Sorted(prio: map<Ptr, nat>, s: seq<Ptr>) {
    forall i, j :: 0 <= i < j < |s| ==> At(prio, s[i], 0) >= At(prio, s[j], 0)
  }

  /** The first position whose task has a lower priority than p. */
  ghost function InsertPos(prio: map<Ptr, nat>, s: seq<Ptr>, p: nat): (i: nat)
    ensures i <= |s|
    ensures forall j :: 0 <= j < i ==> At(prio, s[j], 0) >= p
    ensures i < |s| ==> At(prio, s[i], 0) < p
  {
    if s == [] || At(prio, s[0], 0) < p then 0 else 1 + InsertPos(prio, s[1..], p)
  }

  /** s with t queued behind every task of its own or a higher priority. */
  ghost function Enter(prio: map<Ptr, nat>, s: seq<Ptr>, t: Ptr): (r: seq<Ptr>) {
    Ins(s, InsertPos(prio, s, At(prio, t, 0)), t)
  }

  /** t queued by priority on list h. */
  ghost function Queue(g: Shape, prio: map<Ptr, nat>, h: Ptr, t: Ptr): (r: Shape) {
    Put(g, h, InsertPos(prio, At(g.lists, h, []), At(prio, t, 0)), t)
  }

  lemma EnterSorted(prio: map<Ptr, nat>, s: seq<Ptr>, t: Ptr)
    requires Sorted(prio, s)
    ensures Sorted(prio, Enter(prio, s, t))
  {
    var p := At(prio, t, 0);
    var i, r := InsertPos(prio, s, p), Enter(prio, s, t);
    assert forall j :: 0 <= j < |r| ==> r[j] == if j < i then s[j] else if j == i then t else s[j - 1];
    assert forall j :: i <= j < |s| ==> At(prio, s[j], 0) < p;
  }

  /** Where t is in s. */
  ghost function Index<T>(s: seq<T>, t: T): (i: nat)
    requires t in s
    ensures i < |s| && s[i] == t
  {
    if s[0] == t then 0 else 1 + Index(s[1..], t)
  }

  ghost predicate OnList(g: Shape, t: Ptr) {
    t in g.on && g.on[t] in g.lists && t in g.lists[g.on[t]]
  }

  /** t taken off the list it is on, if any, its own links unchanged. */
  ghost function Unlink(g: Shape, t: Ptr): (r: Shape) {
    if OnList(g, t) then Cut(g, g.on[t], Index(g.lists[g.on[t]], t)) else g
  }
}

/** The delay list: remaining ticks, and their encoding as differences between neighbours. */
module Delays {
  import opened Links
  import opened RtxOrder

  /** A task of the delay list with the ticks left until its time-out. */
  datatype Delay = Delay(task: Ptr, rem: nat)

  ghost function Tasks(d: seq<Delay>): (r: seq<Ptr>)
    ensures |r| == |d| && forall i :: 0 <= i < |d| ==> r[i] == d[i].task
  {
    seq(|d|, i requires 0 <= i < |d| => d[i].task)
  }

  /** Distinct tasks in time-out order; no remaining time exceeds 0xfffe. */
  ghost predicate InOrder(d: seq<Delay>) {
    && NoDup(Tasks(d))
    && (forall i :: 0 <= i < |d| ==> d[i].rem < NO_TIMEOUT)
    && (forall i, j :: 0 <= i < j < |d| ==> d[i].rem <= d[j].rem)
  }

  /** Between ticks every task of the list has at least one tick left. */
  ghost predicate DelayOk(d: seq<Delay>) {
    InOrder(d) && forall i :: 0 <= i < |d| ==> d[i].rem >= 1
  }

  ghost function RemBefore(d: seq<Delay>, i: nat): (r: nat)
    requires i <= |d|
  {
    if i == 0 then 0 else d[i - 1].rem
  }

  /** delta_time of the node before position i: ticks between its own time-out and the next one. */
  ghost predicate Deltas(delta: map<Ptr, nat>, d: seq<Delay>) {
    forall i {:trigger delta[Before(DLY, Tasks(d), i)]} {:trigger Before(DLY, Tasks(d), i) in delta} ::
      0 <= i <= |d| ==>
        && Before(DLY, Tasks(d), i) in delta
        && delta[Before(DLY, Tasks(d), i)] == if i == |d| then 0 else d[i].rem - RemBefore(d, i)
  }

  /** Every node of s is a task, once, and the tasks outside s have no back link. */
  ghost predicate Members(tasks: set<Ptr>, blnk: map<Ptr, Ptr>, s: seq<Ptr>) {
    && DLY !in tasks && NULL !in tasks && NoDup(s)
    && (forall i :: 0 <= i < |s| ==> s[i] in tasks)
    && (forall t :: t in tasks ==> t in blnk && (t in s || blnk[t] == NULL))
  }

  /** The links of the delay list thread s both ways. */
  ghost predicate Threaded(tasks: set<Ptr>, dlnk: map<Ptr, Ptr>, blnk: map<Ptr, Ptr>, s: seq<Ptr>) {
    && Members(tasks, blnk, s)
    && (forall t :: t in tasks ==> t in dlnk)
    && Chain(dlnk, DLY, s)
    && Back(blnk, DLY, s)
  }

  /** The pointer and delta fields represent the delay list d. */
  ghost predicate DelayLinked(tasks: set<Ptr>, dlnk: map<Ptr, Ptr>, blnk: map<Ptr, Ptr>,
                              delta: map<Ptr, nat>, d: seq<Delay>) {
    Threaded(tasks, dlnk, blnk, Tasks(d)) && Deltas(delta, d)
  }

  /** The sum of the delta fields met on the way to position i, the head's first. */
  ghost function SumTo(delta: map<Ptr, nat>, d: seq<Delay>, i: nat): (r: int)
    requires Deltas(delta, d) && i < |d|
  {
    delta[Before(DLY, Tasks(d), i)] + if i == 0 then 0 else SumTo(delta, d, i - 1)
  }

  /** The remaining time of a task is the sum of the deltas in front of it. */
  lemma {:induction false} RemainingIsSum(delta: map<Ptr, nat>, d: seq<Delay>, i: nat)
    requires Deltas(delta, d) && i < |d|
    ensures SumTo(delta, d, i) == d[i].rem
  {
    if i > 0 {
      RemainingIsSum(delta, d, i - 1);
    }
  }

  /** The first position with at least n ticks left. */
  ghost function DelayPos(d: seq<Delay>, n: nat): (i: nat)
    ensures i <= |d|
    ensures forall j :: 0 <= j < i ==> d[j].rem < n
    ensures i < |d| ==> d[i].rem >= n
  {
    if d == [] || d[0].rem >= n then 0 else 1 + DelayPos(d[1..], n)
  }

  ghost function DelayPut(d: seq<Delay>, t: Ptr, n: nat): (r: seq<Delay>) {
    Ins(d, DelayPos(d, n), Delay(t, n))
  }

  ghost function DelayDrop(d: seq<Delay>, t: Ptr): (r: seq<Delay>) {
    if t in Tasks(d) then Del(d, Index(Tasks(d), t)) else d
  }

  /** Every remaining time lowered by one. */
  ghost function Age(d: seq<Delay>): (r: seq<Delay>)
    ensures |r| == |d| && forall i :: 0 <= i < |d| ==> r[i].task == d[i].task
    ensures forall i :: 0 <= i < |d| && d[i].rem >= 1 ==> r[i].rem == d[i].rem - 1
  {
    seq(|d|, i requires 0 <= i < |d| => Delay(d[i].task, if d[i].rem >= 1 then d[i].rem - 1 else 0))
  }

  lemma TasksIns(d: seq<Delay>, i: nat, x: Delay)
    requires i <= |d|
    ensures Tasks(Ins(d, i, x)) == Ins(Tasks(d), i, x.task)
  {
  }

  lemma TasksDel(d: seq<Delay>, i: nat)
    requires i < |d|
    ensures Tasks(Del(d, i)) == Del(Tasks(d), i)
  {
  }

  lemma PutOrder(d: seq<Delay>, t: Ptr, n: nat)
    requires DelayOk(d) && t !in Tasks(d) && 1 <= n < NO_TIMEOUT
    ensures DelayOk(DelayPut(d, t, n))
  {
    hide NoDup, Tasks, DelayPos;
    var i := DelayPos(d, n);
    var d' := DelayPut(d, t, n);
    TasksIns(d, i, Delay(t, n));
    InsNoDup(Tasks(d), i, t);
    assert forall j :: i <= j < |d| ==> d[j].rem >= n;
    assert forall j :: 0 <= j < |d'| ==> d'[j] == if j < i then d[j] else if j == i then Delay(t, n) else d[j - 1];
  }

  /** rt_put_dly gives t exactly n ticks, changes nobody else's, and keeps the order. */
  lemma PutKeepsOthers(d: seq<Delay>, t: Ptr, n: nat)
    requires DelayOk(d) && t !in Tasks(d) && 1 <= n < NO_TIMEOUT
    ensures DelayOk(DelayPut(d, t, n))
    ensures forall x, r :: Delay(x, r) in DelayPut(d, t, n) <==> Delay(x, r) in d || (x == t && r == n)
  {
    hide DelayOk, Tasks, DelayPos, Ins;
    PutOrder(d, t, n);
    InsMembers(d, DelayPos(d, n), Delay(t, n));
  }

  lemma DropOrder(d: seq<Delay>, i: nat)
    requires DelayOk(d) && i < |d|
    ensures DelayOk(Del(d, i))
  {
    hide NoDup, Tasks;
    TasksDel(d, i);
    DelMembers(Tasks(d), i);
    var d' := Del(d, i);
    assert forall j :: 0 <= j < |d'| ==> d'[j] == d[if j < i then j else j + 1];
  }

  lemma DropHas(d: seq<Delay>, i: nat, x: Delay)
    requires NoDup(Tasks(d)) && i < |d|
    ensures x in Del(d, i) <==> x in d && x.task != d[i].task
  {
    assert forall j, k :: 0 <= j < k < |d| ==> Tasks(d)[j] != Tasks(d)[k];
    DelMembers(d, i);
  }

  lemma TaskListed(d: seq<Delay>, x: Delay)
    requires x in d
    ensures x.task in Tasks(d)
  {
    var j :| 0 <= j < |d| && d[j] == x;
    assert Tasks(d)[j] == x.task;
  }

  /** rt_rmv_dly changes nobody else's remaining time. */
  lemma DropKeepsOthers(d: seq<Delay>, t: Ptr)
    requires DelayOk(d)
    ensures DelayOk(DelayDrop(d, t)) && t !in Tasks(DelayDrop(d, t))
    ensures forall x, r :: Delay(x, r) in DelayDrop(d, t) <==> Delay(x, r) in d && x != t
  {
    assert NoDup(Tasks(d));
    hide DelayOk, NoDup, Tasks, Del;
    if t in Tasks(d) {
      var i := Index(Tasks(d), t);
      DropOrder(d, i);
      TasksDel(d, i);
      DelMembers(Tasks(d), i);
      assert d[i].task == t;
      forall x, r
        ensures Delay(x, r) in Del(d, i) <==> Delay(x, r) in d && x != t
      {
        DropHas(d, i, Delay(x, r));
      }
    } else {
      forall x, r | Delay(x, r) in d
        ensures x != t
      {
        TaskListed(d, Delay(x, r));
      }
    }
  }

  lemma PutTasks(d: seq<Delay>, t: Ptr, n: nat)
    ensures forall x :: x in Tasks(DelayPut(d, t, n)) <==> x in Tasks(d) || x == t
  {
    TasksIns(d, DelayPos(d, n), Delay(t, n));
    InsMembers(Tasks(d), DelayPos(d, n), t);
  }

  lemma DropTasks(d: seq<Delay>, t: Ptr)
    requires DelayOk(d)
    ensures forall x :: x in Tasks(DelayDrop(d, t)) <==> x in Tasks(d) && x != t
  {
    if t in Tasks(d) {
      TasksDel(d, Index(Tasks(d), t));
      DelMembers(Tasks(d), Index(Tasks(d), t));
    }
  }

  lemma DeltasPut(delta: map<Ptr, nat>, d: seq<Delay>, i: nat, t: Ptr, n: nat, delta': map<Ptr, nat>)
    requires Deltas(delta, d) && NoDup(Tasks(d)) && DLY !in Tasks(d) && t !in Tasks(d) && t != DLY
    requires i <= |d| && RemBefore(d, i) <= n && (i < |d| ==> n <= d[i].rem)
    requires delta' == delta[t := if i < |d| then d[i].rem - n else 0][Before(DLY, Tasks(d), i) := n - RemBefore(d, i)]
    ensures Deltas(delta', Ins(d, i, Delay(t, n)))
  {
    var d' := Ins(d, i, Delay(t, n));
    var s, s' := Tasks(d), Tasks(d');
    TasksIns(d, i, Delay(t, n));
    forall j | 0 <= j <= |d'|
      ensures Before(DLY, s', j) in delta'
      ensures delta'[Before(DLY, s', j)] == if j == |d'| then 0 else d'[j].rem - RemBefore(d', j)
    {
      var m := if j <= i then j else j - 1;
      if j == i + 1 {
        assert Before(DLY, s', j) == t;
      } else {
        assert Before(DLY, s', j) == Before(DLY, s, m);
        assert Before(DLY, s, m) in delta;
      }
    }
  }

  lemma DeltasDrop(delta: map<Ptr, nat>, d: seq<Delay>, i: nat, delta': map<Ptr, nat>)
    requires Deltas(delta, d) && NoDup(Tasks(d)) && DLY !in Tasks(d)
    requires i < |d| && d[i].task in delta
    requires delta' == delta[Before(DLY, Tasks(d), i) :=
                              if i + 1 < |d| then delta[Before(DLY, Tasks(d), i)] + delta[d[i].task] else 0]
    ensures Deltas(delta', Del(d, i))
  {
    var d' := Del(d, i);
    var s, s' := Tasks(d), Tasks(d');
    TasksDel(d, i);
    assert Before(DLY, s, i + 1) == d[i].task;
    assert Before(DLY, s, i) in delta && Before(DLY, s, i + 1) in delta;
    forall j | 0 <= j <= |d'|
      ensures Before(DLY, s', j) in delta'
      ensures delta'[Before(DLY, s', j)] == if j == |d'| then 0 else d'[j].rem - RemBefore(d', j)
    {
      var m := if j <= i then j else j + 1;
      assert Before(DLY, s', j) == Before(DLY, s, m);
      assert Before(DLY, s, m) in delta;
    }
  }

  /** The fields read around position i of the delay list. */
  lemma DelayAt(tasks: set<Ptr>, dlnk: map<Ptr, Ptr>, blnk: map<Ptr, Ptr>, delta: map<Ptr, nat>,
                d: seq<Delay>, i: nat)
    requires DelayLinked(tasks, dlnk, blnk, delta, d) && i <= |d|
    ensures var b := Before(DLY, Tasks(d), i);
            && b in dlnk && dlnk[b] == After(Tasks(d), i) && (dlnk[b] == NULL <==> i == |d|)
            && b in delta && delta[b] == (if i == |d| then 0 else d[i].rem - RemBefore(d, i))
            && b != NULL && (b == DLY || (b in tasks && b in Tasks(d)))
            && (i < |d| ==> d[i].task in tasks && blnk[d[i].task] == b && d[i].task != b)
    ensures DLY !in Tasks(d) && NULL !in Tasks(d) && DLY !in tasks && NoDup(Tasks(d))
  {
    var s := Tasks(d);
    assert i < |d| ==> s[i] in tasks && blnk[s[i]] == Before(DLY, s, i);
    if i > 0 {
      assert s[i - 1] in tasks;
      assert dlnk[s[i - 1]] == After(s, i);
    }
    assert Before(DLY, s, i) in delta;
  }

  lemma MembersPut(tasks: set<Ptr>, blnk: map<Ptr, Ptr>, s: seq<Ptr>, i: nat, t: Ptr, v: Ptr)
    requires Members(tasks, blnk, s) && t in tasks && t !in s && i <= |s|
    ensures Members(tasks, (if i < |s| then blnk[s[i] := t] else blnk)[t := v], Ins(s, i, t))
  {
    var s' := Ins(s, i, t);
    InsMembers(s, i, t);
    assert forall j :: 0 <= j < |s'| ==> s'[j] == if j < i then s[j] else if j == i then t else s[j - 1];
  }

  lemma MembersDrop(tasks: set<Ptr>, blnk: map<Ptr, Ptr>, s: seq<Ptr>, i: nat, v: Ptr)
    requires Members(tasks, blnk, s) && i < |s|
    ensures Members(tasks, (if i + 1 < |s| then blnk[s[i + 1] := v] else blnk)[s[i] := NULL], Del(s, i))
  {
    var s' := Del(s, i);
    DelMembers(s, i);
    assert forall j :: 0 <= j < |s'| ==> s'[j] == s[if j < i then j else j + 1];
  }

  lemma ThreadedPut(tasks: set<Ptr>, dlnk: map<Ptr, Ptr>, blnk: map<Ptr, Ptr>, s: seq<Ptr>, i: nat, t: Ptr)
    requires Threaded(tasks, dlnk, blnk, s) && t in tasks && t !in s && i <= |s|
    ensures Threaded(tasks, dlnk[t := After(s, i)][Before(DLY, s, i) := t],
                     (if i < |s| then blnk[s[i] := t] else blnk)[t := Before(DLY, s, i)], Ins(s, i, t))
  {
    ChainInsert(dlnk, DLY, s, i, t);
    BackInsert(blnk, DLY, s, i, t);
    MembersPut(tasks, blnk, s, i, t, Before(DLY, s, i));
  }

  lemma ThreadedDrop(tasks: set<Ptr>, dlnk: map<Ptr, Ptr>, blnk: map<Ptr, Ptr>, s: seq<Ptr>, i: nat)
    requires Threaded(tasks, dlnk, blnk, s) && i < |s|
    ensures Threaded(tasks, dlnk[Before(DLY, s, i) := After(s, i + 1)][s[i] := NULL],
                     (if i + 1 < |s| then blnk[s[i + 1] := Before(DLY, s, i)] else blnk)[s[i] := NULL], Del(s, i))
  {
    ChainDelete(dlnk, DLY, s, i);
    BackDelete(blnk, DLY, s, i);
    DelMembers(s, i);
    ChainSkip(dlnk[Before(DLY, s, i) := After(s, i + 1)], DLY, Del(s, i), s[i], NULL);
    BackSkip(if i + 1 < |s| then blnk[s[i + 1] := Before(DLY, s, i)] else blnk, DLY, Del(s, i), s[i], NULL);
    MembersDrop(tasks, blnk, s, i, Before(DLY, s, i));
  }

  /** The differences written by an insertion fit 16 bits. */
  lemma PutFits(d: seq<Delay>, n: nat)
    requires DelayOk(d) && n < NO_TIMEOUT
    ensures var i := DelayPos(d, n);
            && U16(n - RemBefore(d, i)) == n - RemBefore(d, i)
            && (i < |d| ==> U16(d[i].rem - n) == d[i].rem - n)
  {
    hide DelayPos, NoDup, Tasks;
    var i := DelayPos(d, n);
    U16Small(n - RemBefore(d, i));
    if i < |d| {
      U16Small(d[i].rem - n);
    }
  }

  lemma U16Small(x: int)
    requires 0 <= x < 0x1_0000
    ensures U16(x) == x
  {
  }

  lemma DelayLinkedPut(tasks: set<Ptr>, dlnk: map<Ptr, Ptr>, blnk: map<Ptr, Ptr>, delta: map<Ptr, nat>,
                       d: seq<Delay>, t: Ptr, n: nat)
    requires DelayLinked(tasks, dlnk, blnk, delta, d) && DelayOk(d)
    requires t in tasks && t !in Tasks(d) && 1 <= n < NO_TIMEOUT
    ensures var i := DelayPos(d, n);
            var b := Before(DLY, Tasks(d), i);
            && DelayLinked(tasks, dlnk[t := After(Tasks(d), i)][b := t],
                           (if i < |d| then blnk[d[i].task := t] else blnk)[t := b],
                           delta[t := if i < |d| then U16(d[i].rem - n) else 0][b := U16(n - RemBefore(d, i))],
                           DelayPut(d, t, n))
            && DelayOk(DelayPut(d, t, n))
  {
    hide Threaded, Deltas, InOrder, U16, Links.Chain, Links.Back, Links.NoDup, DelayPos, Ins;
    var i := DelayPos(d, n);
    PutFits(d, n);
    DelayAt(tasks, dlnk, blnk, delta, d, i);
    ThreadedPut(tasks, dlnk, blnk, Tasks(d), i, t);
    TasksIns(d, i, Delay(t, n));
    DeltasPut(delta, d, i, t, n,
              delta[t := if i < |d| then d[i].rem - n else 0][Before(DLY, Tasks(d), i) := n - RemBefore(d, i)]);
    PutKeepsOthers(d, t, n);
  }

  lemma DelayLinkedDrop(tasks: set<Ptr>, dlnk: map<Ptr, Ptr>, blnk: map<Ptr, Ptr>, delta: map<Ptr, nat>,
                        d: seq<Delay>, i: nat)
    requires DelayLinked(tasks, dlnk, blnk, delta, d) && i < |d|
    ensures var t, b := d[i].task, Before(DLY, Tasks(d), i);
            && t in delta && b in delta
            && DelayLinked(tasks, dlnk[b := After(Tasks(d), i + 1)][t := NULL],
                           (if i + 1 < |d| then blnk[d[i + 1].task := b] else blnk)[t := NULL],
                           delta[b := if i + 1 < |d| then delta[b] + delta[t] else 0],
                           Del(d, i))
  {
    hide Threaded, Deltas, Links.Chain, Links.Back, Links.NoDup;
    DelayAt(tasks, dlnk, blnk, delta, d, i);
    DelayAt(tasks, dlnk, blnk, delta, d, i + 1);
    var t, b := d[i].task, Before(DLY, Tasks(d), i);
    ThreadedDrop(tasks, dlnk, blnk, Tasks(d), i);
    TasksDel(d, i);
    DeltasDrop(delta, d, i, delta[b := if i + 1 < |d| then delta[b] + delta[t] else 0]);
  }
}
