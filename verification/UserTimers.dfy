/** Running user timers as values: who is due when. */
module TimerQueue {
  import opened Links

  /** A running timer with the ticks left until it is due. */
  datatype Due = Due(timer: Ptr, left: nat)

  /** Fields of the timer control blocks that a tick only reads: osTimerPeriodic, and icnt. */
  datatype Kinds = Kinds(periodic: map<Ptr, bool>, icnt: map<Ptr, nat>)

  ghost function Timers(q: seq<Due>): (s: seq<Ptr>)
    ensures |s| == |q| && forall i :: 0 <= i < |q| ==> s[i] == q[i].timer
  {
    seq(|q|, i requires 0 <= i < |q| => q[i].timer)
  }

  /** Distinct timers in the order in which they are due; counts fit 16 bits. */
  ghost predicate InOrder(q: seq<Due>) {
    && NoDup(Timers(q))
    && (forall i :: 0 <= i < |q| ==> q[i].left <= 0xffff)
    && (forall i, j :: 0 <= i < j < |q| ==> q[i].left <= q[j].left)
  }

  /** Between ticks every running timer has at least one tick left. */
  ghost predicate Ready(q: seq<Due>) {
    InOrder(q) && forall i :: 0 <= i < |q| ==> q[i].left >= 1
  }

  /** The first position whose timer is due later than n. */
  ghost function Position(q: seq<Due>, n: nat): (i: nat)
    ensures i <= |q| && (forall j :: 0 <= j < i ==> q[j].left <= n) && (i < |q| ==> q[i].left > n)
  {
    if q == [] || q[0].left > n then 0 else 1 + Position(q[1..], n)
  }

  /** rt_timer_insert: t is due in n ticks, after the timers due no later. */
  ghost function Put(q: seq<Due>, t: Ptr, n: nat): (r: seq<Due>) {
    Ins(q, Position(q, n), Due(t, n))
  }

  ghost function IndexOf(s: seq<Ptr>, t: Ptr): (i: nat)
    requires t in s
    ensures i < |s| && s[i] == t
  {
    if s[0] == t then 0 else 1 + IndexOf(s[1..], t)
  }

  /** rt_timer_remove */
  ghost function Drop(q: seq<Due>, t: Ptr): (r: seq<Due>) {
    if t in Timers(q) then Del(q, IndexOf(Timers(q), t)) else q
  }

  /** One tick less for everybody. */
  ghost function Lower(q: seq<Due>): (r: seq<Due>)
    ensures |r| == |q|
    ensures forall i :: 0 <= i < |q| ==> r[i] == Due(q[i].timer, if q[i].left >= 1 then q[i].left - 1 else 0)
  {
    seq(|q|, i requires 0 <= i < |q| => Due(q[i].timer, if q[i].left >= 1 then q[i].left - 1 else 0))
  }

  /** How many timers at the front have no tick left. */
  ghost function Zeros(q: seq<Due>): (n: nat)
    ensures n <= |q| && (forall i :: 0 <= i < n ==> q[i].left == 0) && (n < |q| ==> q[n].left != 0)
  {
    if q == [] || q[0].left != 0 then 0 else 1 + Zeros(q[1..])
  }

  /** The expired periodic timers of z, one after the other, put back into r. */
  ghost function Reload(r: seq<Due>, z: seq<Ptr>, k: Kinds): (r': seq<Due>)
    decreases |z|
  {
    if z == [] then r else Reload(if At(k.periodic, z[0], false) then Put(r, z[0], At(k.icnt, z[0], 0)) else r, z[1..], k)
  }

  /** The timers due with the next tick, in order. */
  ghost function Expiring(q: seq<Due>): (z: seq<Ptr>) {
    Timers(Lower(q)[..Zeros(Lower(q))])
  }

  /** sysTimerTick */
  ghost function Tick(q: seq<Due>, k: Kinds): (r: seq<Due>) {
    Reload(Lower(q)[Zeros(Lower(q))..], Expiring(q), k)
  }

  /** Insertion gives t exactly n ticks and changes nobody else's time. */
  lemma PutExact(q: seq<Due>, t: Ptr, n: nat)
    requires InOrder(q) && t !in Timers(q) && n <= 0xffff
    ensures InOrder(Put(q, t, n)) && (Ready(q) && n >= 1 ==> Ready(Put(q, t, n)))
    ensures forall x :: x in Put(q, t, n) <==> x in q || x == Due(t, n)
    ensures forall x :: x in Timers(Put(q, t, n)) <==> x in Timers(q) || x == t
  {
    hide Position, NoDup, Ins;
    PutTimers(q, t, n);
    PutOrder(q, t, n);
    InsMembers(q, Position(q, n), Due(t, n));
  }

  lemma PutTimers(q: seq<Due>, t: Ptr, n: nat)
    requires NoDup(Timers(q)) && t !in Timers(q)
    ensures Timers(Put(q, t, n)) == Ins(Timers(q), Position(q, n), t) && NoDup(Timers(Put(q, t, n)))
    ensures forall x :: x in Timers(Put(q, t, n)) <==> x in Timers(q) || x == t
  {
    var i, s := Position(q, n), Timers(q);
    assert Timers(Put(q, t, n)) == Ins(s, i, t);
    InsMembers(s, i, t);
    InsNoDup(s, i, t);
  }

  lemma PutOrder(q: seq<Due>, t: Ptr, n: nat)
    requires n <= 0xffff && (forall i :: 0 <= i < |q| ==> q[i].left <= 0xffff)
    requires forall i, j :: 0 <= i < j < |q| ==> q[i].left <= q[j].left
    ensures var r := Put(q, t, n);
            && (forall i :: 0 <= i < |r| ==> r[i].left <= 0xffff)
            && (forall i, j :: 0 <= i < j < |r| ==> r[i].left <= r[j].left)
            && (n >= 1 && (forall i :: 0 <= i < |q| ==> q[i].left >= 1) ==> forall i :: 0 <= i < |r| ==> r[i].left >= 1)
  {
    hide Position;
    var p, r := Position(q, n), Put(q, t, n);
    LaterBehind(q, n);
    forall i, j | 0 <= i < j < |r|
      ensures r[i].left <= r[j].left
    {
      assert r[i] == if i < p then q[i] else if i == p then Due(t, n) else q[i - 1];
      assert r[j] == if j < p then q[j] else if j == p then Due(t, n) else q[j - 1];
    }
    forall i | 0 <= i < |r|
      ensures r[i].left <= 0xffff && (n >= 1 && (forall i :: 0 <= i < |q| ==> q[i].left >= 1) ==> r[i].left >= 1)
    {
      assert r[i] == if i < p then q[i] else if i == p then Due(t, n) else q[i - 1];
    }
  }

  lemma LaterBehind(q: seq<Due>, n: nat)
    requires forall i, j :: 0 <= i < j < |q| ==> q[i].left <= q[j].left
    ensures forall i :: Position(q, n) <= i < |q| ==> q[i].left > n
  {
    forall i | Position(q, n) <= i < |q|
      ensures q[i].left > n
    {
      assert q[Position(q, n)].left <= q[i].left;
    }
  }

  lemma TimersDel(q: seq<Due>, i: nat)
    requires i < |q|
    ensures Timers(Del(q, i)) == Del(Timers(q), i)
  {
  }

  lemma DropOrder(q: seq<Due>, i: nat)
    requires InOrder(q) && i < |q|
    ensures InOrder(Del(q, i)) && (Ready(q) ==> Ready(Del(q, i)))
  {
    hide NoDup, Timers;
    TimersDel(q, i);
    DelMembers(Timers(q), i);
    var r := Del(q, i);
    assert forall j :: 0 <= j < |r| ==> r[j] == q[if j < i then j else j + 1];
  }

  lemma DropHas(q: seq<Due>, i: nat, x: Due)
    requires NoDup(Timers(q)) && i < |q|
    ensures x in Del(q, i) <==> x in q && x.timer != q[i].timer
  {
    assert forall j, k :: 0 <= j < k < |q| ==> Timers(q)[j] != Timers(q)[k];
    DelMembers(q, i);
  }

  lemma TimerListed(q: seq<Due>, x: Due)
    requires x in q
    ensures x.timer in Timers(q)
  {
    var j :| 0 <= j < |q| && q[j] == x;
    assert Timers(q)[j] == x.timer;
  }

  /** Removal changes nobody else's time. */
  lemma DropExact(q: seq<Due>, t: Ptr)
    requires InOrder(q)
    ensures InOrder(Drop(q, t)) && t !in Timers(Drop(q, t)) && (Ready(q) ==> Ready(Drop(q, t)))
    ensures forall x :: x in Drop(q, t) <==> x in q && x.timer != t
    ensures forall x :: x in Timers(Drop(q, t)) <==> x in Timers(q) && x != t
  {
    assert NoDup(Timers(q));
    hide InOrder, Ready, NoDup, Timers, Del;
    if t in Timers(q) {
      var i := IndexOf(Timers(q), t);
      DropOrder(q, i);
      TimersDel(q, i);
      DelMembers(Timers(q), i);
      assert q[i].timer == t;
      forall x
        ensures x in Del(q, i) <==> x in q && x.timer != t
      {
        DropHas(q, i, x);
      }
    } else {
      forall x | x in q
        ensures x.timer != t
      {
        TimerListed(q, x);
      }
    }
  }

  /** Every timer of z may be put back: it is in no list and its period fits. */
  ghost predicate Reloadable(r: seq<Due>, z: seq<Ptr>, k: Kinds) {
    && NoDup(z)
    && (forall i :: 0 <= i < |z| ==> z[i] !in Timers(r) && 1 <= At(k.icnt, z[i], 0) <= 0xffff)
  }

  lemma {:induction false} ReloadExact(r: seq<Due>, z: seq<Ptr>, k: Kinds)
    requires Ready(r) && Reloadable(r, z, k)
    ensures Ready(Reload(r, z, k))
    ensures forall x :: x in Reload(r, z, k) <==>
              x in r || (x.timer in z && At(k.periodic, x.timer, false) && x.left == At(k.icnt, x.timer, 0))
    ensures forall x :: x in Timers(Reload(r, z, k)) <==> x in Timers(r) || (x in z && At(k.periodic, x, false))
    decreases |z|
  {
    if z != [] {
      var t, n := z[0], At(k.icnt, z[0], 0);
      var r1 := if At(k.periodic, t, false) then Put(r, t, n) else r;
      if At(k.periodic, t, false) {
        PutExact(r, t, n);
      }
      assert z == [t] + z[1..];
      ReloadExact(r1, z[1..], k);
    }
  }

  lemma LowerOrder(q: seq<Due>)
    requires Ready(q)
    ensures InOrder(Lower(q)) && Timers(Lower(q)) == Timers(q)
    ensures forall i :: Zeros(Lower(q)) <= i < |q| ==> q[i].left > 1
    ensures forall i :: 0 <= i < Zeros(Lower(q)) ==> q[i].left == 1
  {
    hide NoDup;
    var a, n := Lower(q), Zeros(Lower(q));
    assert Timers(a) == Timers(q);
    forall i | n <= i < |q|
      ensures q[i].left > 1
    {
      assert a[n].left <= a[i].left;
    }
  }

  lemma RestReady(a: seq<Due>, n: nat)
    requires InOrder(a) && n <= |a| && forall i :: n <= i < |a| ==> a[i].left >= 1
    ensures Ready(a[n..]) && Timers(a[n..]) == Timers(a)[n..]
  {
    var r := a[n..];
    assert forall i :: 0 <= i < |r| ==> r[i] == a[n + i];
    assert Timers(r) == Timers(a)[n..];
    SuffixNoDup(Timers(a), n);
  }

  lemma SuffixNoDup(s: seq<Ptr>, n: nat)
    requires NoDup(s) && n <= |s|
    ensures NoDup(s[n..])
  {
  }

  /** The lowered queue in two parts: the expired timers, and the others in order. */
  lemma LowerParts(q: seq<Due>)
    requires Ready(q)
    ensures var a, n := Lower(q), Zeros(Lower(q));
            && Ready(a[n..]) && NoDup(Expiring(q)) && |Expiring(q)| == n
            && (forall i :: 0 <= i < n ==> Expiring(q)[i] == q[i].timer && q[i].left == 1)
            && (forall i :: n <= i < |q| ==> q[i].left > 1)
            && (forall i :: 0 <= i < n ==> Expiring(q)[i] !in Timers(a[n..]))
  {
    hide Ready;
    var a, n := Lower(q), Zeros(Lower(q));
    LowerOrder(q);
    RestReady(a, n);
    forall i, j | 0 <= i < j < n
      ensures Expiring(q)[i] != Expiring(q)[j]
    {
      assert Timers(a)[i] != Timers(a)[j];
    }
    forall i | 0 <= i < n
      ensures Expiring(q)[i] !in Timers(a)[n..]
    {
      assert forall j :: 0 <= j < |a| - n ==> Timers(a)[n..][j] == Timers(a)[n + j] && Timers(a)[i] != Timers(a)[n + j];
    }
  }

  /**
   * A tick posts exactly the timers with one tick left, each once, in order; periodic ones among them
   * have icnt ticks left afterwards, every other timer has one tick less, and nobody is left at zero.
   */
  lemma TickExact(q: seq<Due>, k: Kinds)
    requires Ready(q) && forall i :: 0 <= i < |q| ==> 1 <= At(k.icnt, q[i].timer, 0) <= 0xffff
    ensures Ready(Tick(q, k)) && NoDup(Expiring(q))
    ensures forall t :: t in Expiring(q) <==> Due(t, 1) in q
    ensures forall t, n: nat :: Due(t, n) in Tick(q, k) <==>
              (n >= 1 && Due(t, n + 1) in q) ||
              (Due(t, 1) in q && At(k.periodic, t, false) && n == At(k.icnt, t, 0))
  {
    hide Ready, Reload, Reloadable, Lower, Zeros, Expiring;
    var a, n := Lower(q), Zeros(Lower(q));
    LowerParts(q);
    CanReload(q, k);
    ReloadExact(a[n..], Expiring(q), k);
    forall t
      ensures t in Expiring(q) <==> Due(t, 1) in q
    {
      WhoExpires(q, t);
    }
    forall t, m: nat
      ensures Due(t, m) in a[n..] <==> m >= 1 && Due(t, m + 1) in q
    {
      StillRunning(q, t, m);
    }
  }

  lemma CanReload(q: seq<Due>, k: Kinds)
    requires Ready(q) && forall i :: 0 <= i < |q| ==> 1 <= At(k.icnt, q[i].timer, 0) <= 0xffff
    ensures Reloadable(Lower(q)[Zeros(Lower(q))..], Expiring(q), k)
  {
    hide Ready;
    LowerParts(q);
  }

  lemma WhoExpires(q: seq<Due>, t: Ptr)
    requires Ready(q)
    ensures t in Expiring(q) <==> Due(t, 1) in q
  {
    hide Ready;
    LowerParts(q);
    if t in Expiring(q) {
      var i :| 0 <= i < |Expiring(q)| && Expiring(q)[i] == t;
      assert q[i] == Due(t, 1);
    }
    if Due(t, 1) in q {
      var i :| 0 <= i < |q| && q[i] == Due(t, 1);
      assert Expiring(q)[i] == t;
    }
  }

  lemma StillRunning(q: seq<Due>, t: Ptr, m: nat)
    requires Ready(q)
    ensures Due(t, m) in Lower(q)[Zeros(Lower(q))..] <==> m >= 1 && Due(t, m + 1) in q
  {
    hide Ready;
    var a, n := Lower(q), Zeros(Lower(q));
    LowerParts(q);
    if Due(t, m) in a[n..] {
      var i :| 0 <= i < |a[n..]| && a[n..][i] == Due(t, m);
      assert q[n + i] == Due(t, m + 1);
    }
    if m >= 1 && Due(t, m + 1) in q {
      var i :| 0 <= i < |q| && q[i] == Due(t, m + 1);
      assert a[n..][i - n] == Due(t, m);
    }
  }
}

/** rt_CMSIS.c: the user timers' control blocks and their list, changed in place. */
module UserTimers {
  import opened Links
  import opened TimerQueue

  datatype TimerState = INVALID | STOPPED | RUNNING

  ghost function LeftBefore(q: seq<Due>, i: nat): (n: nat)
    requires i <= |q|
  {
    if i == 0 then 0 else q[i - 1].left
  }

  /** The fields of timer t, which is due in left ticks, between a predecessor due in before and the timer after. */
  ghost predicate Cell(next: map<Ptr, Ptr>, tcnt: map<Ptr, nat>, x: Due, before: nat, after: Ptr) {
    && x.timer != NULL && x.timer in next && x.timer in tcnt
    && next[x.timer] == after && tcnt[x.timer] == x.left - before
  }

  /** The links and the differences in the tcnt fields represent q. */
  ghost predicate Linked(next: map<Ptr, Ptr>, tcnt: map<Ptr, nat>, head: Ptr, q: seq<Due>) {
    && head == After(Timers(q), 0)
    && (forall i {:trigger q[i]} :: 0 <= i < |q| ==> Cell(next, tcnt, q[i], LeftBefore(q, i), After(Timers(q), i + 1)))
  }

  /** The stores that link t in at position i, due in n ticks. */
  ghost predicate PutStores(next: map<Ptr, Ptr>, tcnt: map<Ptr, nat>, q: seq<Due>, i: nat, t: Ptr, n: nat,
                            next': map<Ptr, Ptr>, tcnt': map<Ptr, nat>)
    requires i <= |q|
  {
    && LeftBefore(q, i) <= n && (i < |q| ==> n <= q[i].left)
    && next' == (if i == 0 then next[t := After(Timers(q), 0)]
                 else next[t := After(Timers(q), i)][q[i - 1].timer := t])
    && tcnt' == if i < |q| then tcnt[t := n - LeftBefore(q, i)][q[i].timer := q[i].left - n]
                else tcnt[t := n - LeftBefore(q, i)]
  }

  lemma TimersIns(q: seq<Due>, i: nat, x: Due)
    requires i <= |q|
    ensures Timers(Ins(q, i, x)) == Ins(Timers(q), i, x.timer)
  {
    hide Timers;
  }

  /** t linked in at position i. */
  lemma LinkedPut(next: map<Ptr, Ptr>, tcnt: map<Ptr, nat>, head: Ptr, q: seq<Due>, i: nat, t: Ptr, n: nat,
                  next': map<Ptr, Ptr>, tcnt': map<Ptr, nat>)
    requires Linked(next, tcnt, head, q) && NoDup(Timers(q)) && t != NULL && t !in Timers(q)
    requires i <= |q| && PutStores(next, tcnt, q, i, t, n, next', tcnt')
    ensures Linked(next', tcnt', if i == 0 then t else head, Ins(q, i, Due(t, n)))
  {
    hide Cell, NoDup, PutStores, Timers;
    var r := Ins(q, i, Due(t, n));
    TimersIns(q, i, Due(t, n));
    forall j | 0 <= j < |r|
      ensures Cell(next', tcnt', r[j], LeftBefore(r, j), After(Timers(r), j + 1))
    {
      if j != i {
        PutCell(next, tcnt, head, q, i, t, n, next', tcnt', if j < i then j else j - 1);
      } else {
        OwnCell(next, tcnt, q, i, t, n, next', tcnt');
      }
    }
  }

  lemma OwnCell(next: map<Ptr, Ptr>, tcnt: map<Ptr, nat>, q: seq<Due>, i: nat, t: Ptr, n: nat,
                next': map<Ptr, Ptr>, tcnt': map<Ptr, nat>)
    requires t != NULL && t !in Timers(q) && i <= |q| && PutStores(next, tcnt, q, i, t, n, next', tcnt')
    ensures Cell(next', tcnt', Due(t, n), LeftBefore(q, i), After(Timers(q), i))
  {
    assert i > 0 ==> Timers(q)[i - 1] != t;
    assert i < |q| ==> Timers(q)[i] != t;
  }

  /** Timer number m of the old list after the stores. */
  lemma PutCell(next: map<Ptr, Ptr>, tcnt: map<Ptr, nat>, head: Ptr, q: seq<Due>, i: nat, t: Ptr, n: nat,
                next': map<Ptr, Ptr>, tcnt': map<Ptr, nat>, m: nat)
    requires Linked(next, tcnt, head, q) && NoDup(Timers(q)) && t !in Timers(q) && m < |q|
    requires i <= |q| && PutStores(next, tcnt, q, i, t, n, next', tcnt')
    ensures Cell(next', tcnt', q[m], if m == i then n else LeftBefore(q, m),
                 if m + 1 == i then t else After(Timers(q), m + 1))
  {
    hide Timers;
    var s := Timers(q);
    assert Cell(next, tcnt, q[m], LeftBefore(q, m), After(s, m + 1));
    assert s[m] != t;
    assert i > 0 && m != i - 1 ==> s[m] != s[i - 1];
    assert i < |q| && m != i ==> s[m] != s[i];
  }

  /** The stores that unlink timer number i; the one behind it takes over its ticks. */
  ghost predicate DropStores(next: map<Ptr, Ptr>, tcnt: map<Ptr, nat>, q: seq<Due>, i: nat,
                             next': map<Ptr, Ptr>, tcnt': map<Ptr, nat>)
    requires i < |q|
  {
    && next' == (if i == 0 then next else next[q[i - 1].timer := After(Timers(q), i + 1)])
    && if i + 1 < |q| then
         q[i + 1].left >= LeftBefore(q, i) && tcnt' == tcnt[q[i + 1].timer := q[i + 1].left - LeftBefore(q, i)]
       else tcnt' == tcnt
  }

  lemma LinkedDrop(next: map<Ptr, Ptr>, tcnt: map<Ptr, nat>, head: Ptr, q: seq<Due>, i: nat,
                   next': map<Ptr, Ptr>, tcnt': map<Ptr, nat>)
    requires Linked(next, tcnt, head, q) && NoDup(Timers(q)) && i < |q| && DropStores(next, tcnt, q, i, next', tcnt')
    ensures Linked(next', tcnt', if i == 0 then After(Timers(q), 1) else head, Del(q, i))
  {
    hide Cell, NoDup, Timers;
    var r := Del(q, i);
    TimersDel(q, i);
    forall j | 0 <= j < |r|
      ensures Cell(next', tcnt', r[j], LeftBefore(r, j), After(Timers(r), j + 1))
    {
      DropCell(next, tcnt, head, q, i, next', tcnt', if j < i then j else j + 1);
    }
  }

  lemma DropCell(next: map<Ptr, Ptr>, tcnt: map<Ptr, nat>, head: Ptr, q: seq<Due>, i: nat,
                 next': map<Ptr, Ptr>, tcnt': map<Ptr, nat>, m: nat)
    requires Linked(next, tcnt, head, q) && NoDup(Timers(q)) && i < |q| && DropStores(next, tcnt, q, i, next', tcnt')
    requires m < |q| && m != i
    ensures Cell(next', tcnt', q[m], if m == i + 1 then LeftBefore(q, i) else LeftBefore(q, m),
                 if m + 1 == i then After(Timers(q), i + 1) else After(Timers(q), m + 1))
  {
    hide Timers;
    var s := Timers(q);
    assert Cell(next, tcnt, q[m], LeftBefore(q, m), After(s, m + 1));
    assert i > 0 && m != i - 1 ==> s[m] != s[i - 1];
    assert i + 1 < |q| && m != i + 1 ==> s[m] != s[i + 1];
  }

  /** What the fields around position i say. */
  lemma LinkedAt(next: map<Ptr, Ptr>, tcnt: map<Ptr, nat>, head: Ptr, q: seq<Due>, i: nat)
    requires Linked(next, tcnt, head, q) && i < |q|
    ensures var t := q[i].timer;
            && t != NULL && t in next && t in tcnt && next[t] == After(Timers(q), i + 1)
            && (next[t] == NULL <==> i + 1 == |q|) && tcnt[t] == q[i].left - LeftBefore(q, i)
    ensures head == q[0].timer && head != NULL
  {
    assert Cell(next, tcnt, q[i], LeftBefore(q, i), After(Timers(q), i + 1));
    assert i + 1 < |q| ==> q[i + 1].timer != NULL;
    assert q[0].timer != NULL;
  }

  lemma LinkedEmpty(next: map<Ptr, Ptr>, tcnt: map<Ptr, nat>, head: Ptr, q: seq<Due>)
    requires Linked(next, tcnt, head, q)
    ensures (head == NULL <==> q == []) && head == After(Timers(q), 0)
  {
    if q != [] {
      LinkedAt(next, tcnt, head, q, 0);
    }
  }

  /** Lowering the head's count lowers everybody's. */
  lemma LinkedLower(next: map<Ptr, Ptr>, tcnt: map<Ptr, nat>, head: Ptr, q: seq<Due>)
    requires Linked(next, tcnt, head, q) && Ready(q) && q != []
    ensures head in tcnt && tcnt[head] >= 1 && Linked(next, tcnt[head := tcnt[head] - 1], head, Lower(q))
  {
    var a, s := Lower(q), Timers(q);
    assert Timers(a) == s;
    LinkedAt(next, tcnt, head, q, 0);
    forall i | 0 <= i < |a|
      ensures Cell(next, tcnt[head := tcnt[head] - 1], a[i], LeftBefore(a, i), After(s, i + 1))
    {
      assert Cell(next, tcnt, q[i], LeftBefore(q, i), After(s, i + 1));
      assert a[i].timer == q[i].timer == s[i] && (i > 0 ==> s[i] != s[0]);
    }
  }

  /** os_timer_head and the fields of the timer control blocks. */
  class TimerList {
    var head: Ptr
    var next: map<Ptr, Ptr>
    var tcnt: map<Ptr, nat>
    var icnt: map<Ptr, nat>
    var periodic: map<Ptr, bool>
    var state: map<Ptr, TimerState>
    ghost var q: seq<Due>

    ghost predicate Rep()
      reads this
    {
      Linked(next, tcnt, head, q)
    }

    /** Between calls: exactly the running timers are listed, all in the future, and each has its type and its period. */
    ghost predicate Valid()
      reads this
    {
      && Rep() && Ready(q)
      && (forall t :: At(state, t, INVALID) == RUNNING <==> t in Timers(q))
      && (forall t :: At(state, t, INVALID) == RUNNING ==> t in icnt && 1 <= icnt[t] <= 0xffff)
      && (forall t :: At(state, t, INVALID) != INVALID ==> t in periodic)
    }

    ghost function K(): (k: Kinds)
      reads this
    {
      Kinds(periodic, icnt)
    }

    constructor ()
      ensures Valid() && q == []
    {
      head, next, tcnt, icnt, periodic, state, q := NULL, map[], map[], map[], map[], map[], [];
    }

    /** The search loop of rt_timer_insert. */
    method Find(count: nat) returns (prev: Ptr, p: Ptr, n: nat, ghost i: nat)
      requires Rep()
      ensures i == Position(q, count) && p == After(Timers(q), i) && prev == (if i == 0 then NULL else q[i - 1].timer)
      ensures (p == NULL <==> i == |q|) && (prev == NULL <==> i == 0) && LeftBefore(q, i) <= count && n == count - LeftBefore(q, i)
    {
      hide Linked, Timers;
      p, prev, n, i := head, NULL, count, 0;
      LinkedEmpty(next, tcnt, head, q);
      while p != NULL
        invariant 0 <= i <= Position(q, count) && p == After(Timers(q), i)
        invariant prev == (if i == 0 then NULL else q[i - 1].timer) && (p == NULL <==> i == |q|) && (prev == NULL <==> i == 0)
        invariant LeftBefore(q, i) <= count && n == count - LeftBefore(q, i)
        decreases |q| - i
      {
        LinkedAt(next, tcnt, head, q, i);
        if n < tcnt[p] {
          break;
        }
        n := n - tcnt[p];
        prev := p;
        p := next[p];
        i := i + 1;
      }
    }

    /** rt_timer_insert */
    method Insert(pt: Ptr, count: nat)
      requires Rep() && InOrder(q) && pt != NULL && pt !in Timers(q) && count <= 0xffff
      modifies this`head, this`next, this`tcnt, this`q
      ensures Rep() && q == Put(old(q), pt, count)
    {
      hide Linked, NoDup, Timers, Position;
      var prev, p, n, i := Find(count);
      if p != NULL {
        LinkedAt(next, tcnt, head, q, i);
        assert Timers(q)[i] != pt;
      }
      if prev != NULL {
        LinkedAt(next, tcnt, head, q, i - 1);
      }
      ghost var next0, tcnt0, head0 := next, tcnt, head;
      next := next[pt := p];
      tcnt := tcnt[pt := n];
      if p != NULL {
        tcnt := tcnt[p := tcnt[p] - n];
      }
      if prev != NULL {
        next := next[prev := pt];
      } else {
        head := pt;
      }
      LinkedPut(next0, tcnt0, head0, q, i, pt, count, next, tcnt);
      q := Put(q, pt, count);
    }

    /** rt_timer_remove */
    method Remove(pt: Ptr) returns (code: int)
      requires Rep() && InOrder(q)
      modifies this`head, this`next, this`tcnt, this`q
      ensures Rep() && q == Drop(old(q), pt) && code == if pt in Timers(old(q)) then 0 else -1
    {
      hide Linked, NoDup, Timers, Position;
      var prev, p, i := Search(pt);
      if p == NULL {
        return -1;
      }
      LinkedAt(next, tcnt, head, q, i);
      if i + 1 < |q| {
        LinkedAt(next, tcnt, head, q, i + 1);
      }
      if prev != NULL {
        LinkedAt(next, tcnt, head, q, i - 1);
      }
      ghost var next0, tcnt0, head0 := next, tcnt, head;
      if prev != NULL {
        next := next[prev := next[pt]];
      } else {
        head := next[pt];
      }
      if next[pt] != NULL {
        tcnt := tcnt[next[pt] := tcnt[next[pt]] + tcnt[pt]];
      }
      LinkedDrop(next0, tcnt0, head0, q, i, next, tcnt);
      q := Drop(q, pt);
      return 0;
    }

    /** The search loop of rt_timer_remove. */
    method Search(pt: Ptr) returns (prev: Ptr, p: Ptr, ghost i: nat)
      requires Rep() && InOrder(q)
      ensures if pt in Timers(q) then i == IndexOf(Timers(q), pt) && p == pt && p != NULL else p == NULL
      ensures p != NULL ==> prev == (if i == 0 then NULL else q[i - 1].timer) && (prev == NULL <==> i == 0)
      ensures p != NULL && prev != NULL ==> prev != pt
    {
      hide Linked, Timers;
      prev, p, i := NULL, head, 0;
      LinkedEmpty(next, tcnt, head, q);
      while p != NULL
        invariant 0 <= i <= |q| && p == After(Timers(q), i) && (p == NULL <==> i == |q|)
        invariant prev == (if i == 0 then NULL else q[i - 1].timer) && (prev == NULL <==> i == 0)
        invariant forall j :: 0 <= j < i ==> Timers(q)[j] != pt
        decreases |q| - i
      {
        LinkedAt(next, tcnt, head, q, i);
        if p == pt {
          break;
        }
        prev := p;
        p := next[p];
        i := i + 1;
      }
    }

    /** svcTimerCreate, for a timer definition with a control block. */
    method Create(pt: Ptr, isPeriodic: bool) returns (ok: bool)
      requires Valid() && pt != NULL
      modifies this`state, this`periodic
      ensures Valid() && ok == (At(old(state), pt, INVALID) == INVALID)
      ensures ok ==> state == old(state)[pt := STOPPED] && periodic == old(periodic)[pt := isPeriodic]
      ensures !ok ==> state == old(state) && periodic == old(periodic)
    {
      hide Linked, Timers, InOrder;
      ok := pt !in state || state[pt] == INVALID;
      if ok {
        state := state[pt := STOPPED];
        periodic := periodic[pt := isPeriodic];
      }
    }

    /** svcTimerStart with a count of ticks. A running timer is started again, but keeps its old period. */
    method Start(pt: Ptr, count: nat) returns (code: Status)
      requires Valid() && count <= 0xffff
      modifies this
      ensures Valid()
      ensures code == (if pt == NULL then ErrorParameter else if count == 0 then ErrorValue
                       else if At(old(state), pt, INVALID) == INVALID then ErrorResource else OK)
      ensures q == if code == OK then Put(Drop(old(q), pt), pt, count) else old(q)
      ensures periodic == old(periodic) && state == (if code == OK then old(state)[pt := RUNNING] else old(state))
      ensures icnt == if code == OK && old(state)[pt] == STOPPED then old(icnt)[pt := count] else old(icnt)
    {
      hide Linked, Timers, InOrder, Put, Drop;
      if pt == NULL {
        return ErrorParameter;
      }
      if count == 0 {
        return ErrorValue;
      }
      if pt !in state || state[pt] == INVALID {
        return ErrorResource;
      }
      assert InOrder(q) by { ReadyInOrder(q); }
      DropExact(q, pt);
      PutExact(Drop(q, pt), pt, count);
      if state[pt] == RUNNING {
        var removed := Remove(pt);
      } else {
        NotListed(q, pt);
        state := state[pt := RUNNING];
        icnt := icnt[pt := count];
      }
      Insert(pt, count);
      assert old(state)[pt := RUNNING] == state;
      return OK;
    }

    /** svcTimerStop */
    method Stop(pt: Ptr) returns (code: Status)
      requires Valid()
      modifies this
      ensures Valid()
      ensures code == (if pt == NULL then ErrorParameter
                       else if At(old(state), pt, INVALID) != RUNNING then ErrorResource else OK)
      ensures q == (if code == OK then Drop(old(q), pt) else old(q)) && icnt == old(icnt) && periodic == old(periodic)
      ensures state == if code == OK then old(state)[pt := STOPPED] else old(state)
    {
      hide Linked, Timers, InOrder, Drop;
      if pt == NULL {
        return ErrorParameter;
      }
      if pt !in state || state[pt] != RUNNING {
        return ErrorResource;
      }
      assert InOrder(q) by { ReadyInOrder(q); }
      DropExact(q, pt);
      state := state[pt := STOPPED];
      var removed := Remove(pt);
      return OK;
    }

    /** svcTimerDelete */
    method Delete(pt: Ptr) returns (code: Status)
      requires Valid()
      modifies this
      ensures Valid()
      ensures code == (if pt == NULL then ErrorParameter
                       else if At(old(state), pt, INVALID) == INVALID then ErrorResource else OK)
      ensures q == (if code == OK then Drop(old(q), pt) else old(q)) && icnt == old(icnt) && periodic == old(periodic)
      ensures state == if code == OK then old(state)[pt := INVALID] else old(state)
    {
      hide Linked, Timers, InOrder, Drop;
      if pt == NULL {
        return ErrorParameter;
      }
      if pt !in state || state[pt] == INVALID {
        return ErrorResource;
      }
      assert InOrder(q) by { ReadyInOrder(q); }
      DropExact(q, pt);
      if state[pt] == RUNNING {
        var removed := Remove(pt);
      } else {
        NotListed(q, pt);
      }
      state := state[pt := INVALID];
      return OK;
    }

    /** sysTimerTick; posted holds the timers handed to the timer thread's queue, one message each. */
    method SysTimerTick() returns (posted: seq<Ptr>)
      requires Valid()
      modifies this
      ensures Valid() && q == Tick(old(q), K()) && posted == Expiring(old(q))
      ensures icnt == old(icnt) && periodic == old(periodic)
      ensures forall t :: At(state, t, INVALID) ==
                          if t in posted && !At(periodic, t, false) then STOPPED else At(old(state), t, INVALID)
    {
      hide Linked, Timers, Ready, Expiring, Zeros, Lower, Tick;
      LinkedEmpty(next, tcnt, head, q);
      if head == NULL {
        NothingRuns(q, K());
        return [];
      }
      ghost var z, r := Expiring(q), Lower(q)[Zeros(Lower(q))..];
      Periods(q, icnt, K());
      TickKeeps(q, K());
      posted := TickList(z, r);
    }

    /** sysTimerTick with a timer running. */
    method TickList(ghost z: seq<Ptr>, ghost r: seq<Due>) returns (posted: seq<Ptr>)
      requires Rep() && Ready(q) && q != [] && z == Expiring(q) && r == Lower(q)[Zeros(Lower(q))..]
      requires forall t :: t in Timers(q) ==> t in periodic && t in icnt
      requires forall i :: 0 <= i < |q| ==> 1 <= At(icnt, q[i].timer, 0) <= 0xffff
      modifies this`head, this`next, this`tcnt, this`q, this`state
      ensures Rep() && q == Tick(old(q), K()) && posted == Expiring(old(q))
      ensures forall t :: At(state, t, INVALID) == if t in posted && !periodic[t] then STOPPED else At(old(state), t, INVALID)
    {
      hide Linked, Timers, Ready, InOrder, Reload, Expiring, Zeros, Lower, Expired, Tick;
      StartTick(next, tcnt, head, q, K());
      LinkedLower(next, tcnt, head, q);
      LinkedEmpty(next, tcnt, head, q);
      TickIs(q, K());
      tcnt := tcnt[head := tcnt[head] - 1];
      q := Lower(q);
      posted := Expire(z, r);
    }

    /** The loop of sysTimerTick on a queue whose first timers z have no tick left. */
    method Expire(ghost z: seq<Ptr>, ghost r: seq<Due>) returns (posted: seq<Ptr>)
      requires Rep() && Expired(q, z, r, K()) && forall i :: 0 <= i < |z| ==> z[i] in periodic && z[i] in icnt
      modifies this`head, this`next, this`tcnt, this`q, this`state
      ensures Rep() && q == Reload(r, z, K()) && posted == z
      ensures forall t :: At(state, t, INVALID) == if t in z && !periodic[t] then STOPPED else At(old(state), t, INVALID)
    {
      hide Linked, Timers, Ready, Reload, Expired, NoneLeft;
      posted := [];
      var p := head;
      ghost var j, r1 := 0, r;
      assert z[0..] == z;
      FrontTimer(next, tcnt, head, q, z, r, K());
      while p != NULL && tcnt[p] == 0
        invariant 0 <= j <= |z| && posted == z[..j]
        invariant Rep() && Expired(q, z[j..], r1, K()) && Reload(r1, z[j..], K()) == Reload(r, z, K())
        invariant if j < |z| then p == z[j] && p == head && p != NULL && p in tcnt && tcnt[p] == 0
                  else p == NULL || (p in tcnt && tcnt[p] > 0)
        invariant forall t :: At(state, t, INVALID) == if t in z[..j] && !periodic[t] then STOPPED else At(old(state), t, INVALID)
        decreases |z| - j
      {
        assert z[j..][0] == z[j] && z[j..][1..] == z[j + 1..];
        assert z[..j + 1] == z[..j] + [z[j]];
        ReloadNext(r1, z[j..], K());
        var pt := p;
        posted := posted + [pt];
        p, r1 := ExpireFirst(pt, z[j..], r1);
        j := j + 1;
      }
      assert j == |z| && z[..j] == z && z[j..] == [];
      AllExpired(q, z[j..], r1, K());
    }

    /** One pass of the loop: the first timer leaves the list, or goes back in with its period. */
    method ExpireFirst(pt: Ptr, ghost z: seq<Ptr>, ghost r: seq<Due>) returns (p: Ptr, ghost r': seq<Due>)
      requires Rep() && Expired(q, z, r, K()) && z != [] && pt == z[0] && pt == head && pt in periodic && pt in icnt
      modifies this`head, this`next, this`tcnt, this`q, this`state
      ensures Rep() && r' == Reloaded(r, pt, K()) && Expired(q, z[1..], r', K())
      ensures if |z| > 1 then p == z[1] && p == head && p != NULL && p in tcnt && tcnt[p] == 0
              else p == NULL || (p in tcnt && tcnt[p] > 0)
      ensures state == if periodic[pt] then old(state) else old(state)[pt := STOPPED]
    {
      hide Linked, Timers, Ready, InOrder, NoneLeft, Expired;
      ghost var q0 := q;
      r' := Reloaded(r, pt, K());
      FrontFacts(next, tcnt, head, q, z, r, K());
      p := next[pt];
      head := p;
      q := q[1..];
      if periodic[pt] {
        Insert(pt, icnt[pt]);
      } else {
        state := state[pt := STOPPED];
      }
      NextExpired(q0, z, r, K());
      FrontTimer(next, tcnt, head, q, z[1..], r', K());
      if |z| == 1 {
        AllExpired(q, z[1..], r', K());
        OldHead(next, tcnt, head, r, r', pt, K());
      }
    }
  }

  /** The state of sysTimerTick's loop: z still to be handled, all at zero, in front of the timers r. */
  ghost predicate Expired(q: seq<Due>, z: seq<Ptr>, r: seq<Due>, k: Kinds) {
    q == NoneLeft(z) + r && InOrder(q) && Ready(r) && Reloadable(r, z, k) && NULL !in z && forall x :: x in r ==> x.timer != NULL
  }

  ghost function Reloaded(r: seq<Due>, t: Ptr, k: Kinds): (r': seq<Due>) {
    if At(k.periodic, t, false) then Put(r, t, At(k.icnt, t, 0)) else r
  }

  lemma ReloadNext(r: seq<Due>, z: seq<Ptr>, k: Kinds)
    requires z != []
    ensures Reload(r, z, k) == Reload(Reloaded(r, z[0], k), z[1..], k)
  {
  }

  lemma AllExpired(q: seq<Due>, z: seq<Ptr>, r: seq<Due>, k: Kinds)
    requires Expired(q, z, r, k) && z == []
    ensures q == r && Reload(r, z, k) == r
  {
    assert NoneLeft(z) == [];
  }

  datatype Status = OK | ErrorParameter | ErrorValue | ErrorResource

  /** Timers without a tick left. */
  ghost function NoneLeft(z: seq<Ptr>): (q: seq<Due>)
    ensures |q| == |z| && forall i :: 0 <= i < |z| ==> q[i] == Due(z[i], 0)
  {
    seq(|z|, i requires 0 <= i < |z| => Due(z[i], 0))
  }

  lemma ReadyInOrder(q: seq<Due>)
    requires Ready(q)
    ensures InOrder(q)
  {
  }

  lemma NotListed(q: seq<Due>, t: Ptr)
    requires t !in Timers(q)
    ensures Drop(q, t) == q
  {
  }

  /** The head of the list while timers are still to be handled, and when they are not. */
  lemma FrontTimer(next: map<Ptr, Ptr>, tcnt: map<Ptr, nat>, head: Ptr, q: seq<Due>, z: seq<Ptr>, r: seq<Due>, k: Kinds)
    requires Linked(next, tcnt, head, q) && Expired(q, z, r, k)
    ensures if z != [] then head == z[0] && head != NULL && head in tcnt && tcnt[head] == 0
            else head == NULL || (head in tcnt && tcnt[head] > 0)
  {
    hide Linked, Timers, InOrder, Reloadable;
    LinkedEmpty(next, tcnt, head, q);
    if q != [] {
      LinkedAt(next, tcnt, head, q, 0);
    }
  }

  /** The first of the expired timers can be taken off. */
  lemma FrontFacts(next: map<Ptr, Ptr>, tcnt: map<Ptr, nat>, head: Ptr, q: seq<Due>, z: seq<Ptr>, r: seq<Due>, k: Kinds)
    requires Linked(next, tcnt, head, q) && Expired(q, z, r, k) && z != []
    ensures head in next && next[head] == (if |z| > 1 then z[1] else if r != [] then r[0].timer else NULL)
    ensures q != [] && Linked(next, tcnt, next[head], q[1..]) && InOrder(q[1..]) && Ready(r)
    ensures z[0] != NULL && z[0] !in Timers(q[1..]) && 1 <= At(k.icnt, z[0], 0) <= 0xffff
  {
    hide Linked, Timers, Reloadable, NoDup, Cell;
    LinkedAt(next, tcnt, head, q, 0);
    if |q| > 1 {
      LinkedAt(next, tcnt, head, q, 1);
      assert tcnt[q[1].timer := q[1].left - 0] == tcnt;
      assert q[1] == if |z| > 1 then Due(z[1], 0) else r[0];
    }
    LinkedDrop(next, tcnt, head, q, 0, next, tcnt);
    assert Del(q, 0) == q[1..];
    TailInOrder(q);
    assert Reloadable(r, z, k) ==> 1 <= At(k.icnt, z[0], 0) <= 0xffff by { ReloadableFirst(r, z, k); }
  }

  lemma ReloadableFirst(r: seq<Due>, z: seq<Ptr>, k: Kinds)
    requires z != []
    ensures Reloadable(r, z, k) ==> 1 <= At(k.icnt, z[0], 0) <= 0xffff && z[0] !in Timers(r)
  {
  }

  lemma TailInOrder(q: seq<Due>)
    requires InOrder(q) && q != []
    ensures InOrder(q[1..]) && q[0].timer !in Timers(q[1..])
  {
    hide Timers;
    assert Timers(q) == [q[0].timer] + Timers(q[1..]);
    SuffixNoDup(Timers(q), 1);
    assert Timers(q)[1..] == Timers(q[1..]);
    assert forall i :: 0 < i < |q| ==> Timers(q)[i] != Timers(q)[0];
  }

  /** A reloaded timer goes behind all those that are still to be handled. */
  lemma PutBehind(z: seq<Ptr>, r: seq<Due>, t: Ptr, n: nat)
    requires n >= 1
    ensures Put(NoneLeft(z) + r, t, n) == NoneLeft(z) + Put(r, t, n)
  {
    hide Position, NoneLeft, Ins;
    PositionBehind(z, r, n);
    InsBehind(NoneLeft(z), r, Position(r, n), Due(t, n));
  }

  lemma InsBehind(a: seq<Due>, b: seq<Due>, i: nat, x: Due)
    requires i <= |b|
    ensures Ins(a + b, |a| + i, x) == a + Ins(b, i, x)
  {
  }

  lemma {:induction false} PositionBehind(z: seq<Ptr>, r: seq<Due>, n: nat)
    requires n >= 1
    ensures Position(NoneLeft(z) + r, n) == |z| + Position(r, n)
  {
    if z == [] {
      assert NoneLeft(z) + r == r;
    } else {
      assert (NoneLeft(z) + r)[1..] == NoneLeft(z[1..]) + r;
      PositionBehind(z[1..], r, n);
    }
  }

  /** After the first of the expired timers has been handled. */
  lemma NextExpired(q: seq<Due>, z: seq<Ptr>, r: seq<Due>, k: Kinds)
    requires Expired(q, z, r, k) && z != []
    ensures var t, n := z[0], At(k.icnt, z[0], 0);
            var q' := if At(k.periodic, t, false) then Put(q[1..], t, n) else q[1..];
            q' == NoneLeft(z[1..]) + Reloaded(r, t, k) && Expired(q', z[1..], Reloaded(r, t, k), k)
  {
    hide Ready, InOrder, Put, Timers, NoDup;
    var t, n := z[0], At(k.icnt, z[0], 0);
    assert q[1..] == NoneLeft(z[1..]) + r;
    assert q[0] == Due(t, 0);
    TailInOrder(q);
    ReloadableFirst(r, z, k);
    ReadyInOrder(r);
    RestReloadable(r, z, k);
    if At(k.periodic, t, false) {
      PutBehind(z[1..], r, t, n);
      PutExact(q[1..], t, n);
      PutExact(r, t, n);
    }
  }

  lemma RestReloadable(r: seq<Due>, z: seq<Ptr>, k: Kinds)
    requires Reloadable(r, z, k) && z != []
    ensures Reloadable(r, z[1..], k) && z[0] !in z[1..]
    ensures forall r' :: (forall x :: x in Timers(r') ==> x in Timers(r) || x == z[0]) ==> Reloadable(r', z[1..], k)
  {
    hide Timers;
    assert forall i :: 0 <= i < |z[1..]| ==> z[1..][i] == z[i + 1];
    SuffixNoDup(z, 1);
  }

  /** The timer that headed the list before a reload has ticks left, in front or in second place. */
  lemma OldHead(next: map<Ptr, Ptr>, tcnt: map<Ptr, nat>, head: Ptr, r: seq<Due>, r': seq<Due>, t: Ptr, k: Kinds)
    requires Linked(next, tcnt, head, r') && r' == Reloaded(r, t, k) && Ready(r) && 1 <= At(k.icnt, t, 0)
    ensures r != [] ==> r[0].timer in tcnt && tcnt[r[0].timer] > 0
  {
    hide Linked, Timers, InOrder, Position;
    if r != [] {
      if At(k.periodic, t, false) && Position(r, At(k.icnt, t, 0)) == 0 {
        assert r'[1] == r[0] && r'[0] == Due(t, At(k.icnt, t, 0));
        LinkedAt(next, tcnt, head, r', 1);
      } else {
        assert r'[0] == r[0];
        LinkedAt(next, tcnt, head, r', 0);
      }
    }
  }

  lemma TickIs(q: seq<Due>, k: Kinds)
    ensures Tick(q, k) == Reload(Lower(q)[Zeros(Lower(q))..], Expiring(q), k)
  {
  }

  lemma NothingRuns(q: seq<Due>, k: Kinds)
    requires q == []
    ensures Tick(q, k) == q && Expiring(q) == []
  {
  }

  lemma Periods(q: seq<Due>, icnt: map<Ptr, nat>, k: Kinds)
    requires k.icnt == icnt && forall t :: t in Timers(q) ==> t in icnt && 1 <= icnt[t] <= 0xffff
    ensures forall i :: 0 <= i < |q| ==> 1 <= At(k.icnt, q[i].timer, 0) <= 0xffff
  {
    forall i | 0 <= i < |q|
      ensures 1 <= At(k.icnt, q[i].timer, 0) <= 0xffff
    {
      assert Timers(q)[i] in Timers(q);
    }
  }

  /** The state in which the loop of sysTimerTick starts. */
  lemma StartTick(next: map<Ptr, Ptr>, tcnt: map<Ptr, nat>, head: Ptr, q: seq<Due>, k: Kinds)
    requires Ready(q) && Linked(next, tcnt, head, q) && forall i :: 0 <= i < |q| ==> 1 <= At(k.icnt, q[i].timer, 0) <= 0xffff
    ensures Expired(Lower(q), Expiring(q), Lower(q)[Zeros(Lower(q))..], k)
    ensures forall i :: 0 <= i < |Expiring(q)| ==> Expiring(q)[i] in Timers(q)
  {
    hide Ready, InOrder, Linked, Timers, Reloadable, Lower, Zeros;
    var a, n := Lower(q), Zeros(Lower(q));
    LowerOrder(q);
    LowerParts(q);
    CanReload(q, k);
    LowerTimers(next, tcnt, head, q);
    assert NoneLeft(Expiring(q)) + a[n..] == a by {
      assert forall i :: 0 <= i < n ==> NoneLeft(Expiring(q))[i] == a[i];
    }
    assert forall i :: 0 <= i < |a[n..]| ==> a[n..][i] == a[n + i];
  }

  lemma LowerTimers(next: map<Ptr, Ptr>, tcnt: map<Ptr, nat>, head: Ptr, q: seq<Due>)
    requires Linked(next, tcnt, head, q)
    ensures |Lower(q)| == |q| && forall i :: 0 <= i < |q| ==> Lower(q)[i].timer != NULL && Lower(q)[i].timer in Timers(q)
  {
    hide Linked;
    forall i | 0 <= i < |q|
      ensures Lower(q)[i].timer != NULL && Lower(q)[i].timer in Timers(q)
    {
      LinkedAt(next, tcnt, head, q, i);
      assert Timers(q)[i] == Lower(q)[i].timer;
    }
  }

  ghost function LeftOf(q: seq<Due>, t: Ptr): (n: nat)
    requires t in Timers(q)
    ensures Due(t, n) in q
  {
    var i :| 0 <= i < |q| && Timers(q)[i] == t;
    assert q[i] == Due(t, q[i].left);
    q[i].left
  }

  lemma Listed(q: seq<Due>, t: Ptr, n: nat)
    requires Due(t, n) in q
    ensures t in Timers(q)
  {
    var i :| 0 <= i < |q| && q[i] == Due(t, n);
    assert Timers(q)[i] == t;
  }

  lemma OneEntry(q: seq<Due>, t: Ptr, m: nat, n: nat)
    requires InOrder(q) && Due(t, m) in q && Due(t, n) in q
    ensures m == n && (Ready(q) ==> n >= 1)
  {
    var i :| 0 <= i < |q| && q[i] == Due(t, m);
    var j :| 0 <= j < |q| && q[j] == Due(t, n);
    assert Timers(q)[i] == Timers(q)[j];
  }

  /** One entry of the queue after a tick. */
  lemma TickEntry(q: seq<Due>, k: Kinds, t: Ptr, n: nat)
    requires Ready(q) && forall i :: 0 <= i < |q| ==> 1 <= At(k.icnt, q[i].timer, 0) <= 0xffff
    ensures Due(t, n) in Tick(q, k) <==>
              (n >= 1 && Due(t, n + 1) in q) || (Due(t, 1) in q && At(k.periodic, t, false) && n == At(k.icnt, t, 0))
  {
    hide Ready, Reload, Expiring, Timers, Tick;
    TickExact(q, k);
  }

  /** The timers that run after a tick: all that ran, but for the one-shot timers that expired. */
  lemma TickRunning(q: seq<Due>, k: Kinds, t: Ptr)
    requires Ready(q) && forall i :: 0 <= i < |q| ==> 1 <= At(k.icnt, q[i].timer, 0) <= 0xffff
    ensures t in Timers(Tick(q, k)) <==> t in Timers(q) && !(t in Expiring(q) && !At(k.periodic, t, false))
  {
    hide Ready, InOrder, Reload, Expiring, Timers, Tick;
    TickExact(q, k);
    ReadyInOrder(q);
    if t in Timers(Tick(q, k)) {
      var m := LeftOf(Tick(q, k), t);
      var n := if m >= 1 && Due(t, m + 1) in q then m + 1 else 1;
      Listed(q, t, n);
      if t in Expiring(q) {
        OneEntry(q, t, n, 1);
      }
    }
    if t in Timers(q) {
      var n := LeftOf(q, t);
      OneEntry(q, t, n, n);
      if n > 1 {
        Listed(Tick(q, k), t, n - 1);
      } else if At(k.periodic, t, false) {
        TickEntry(q, k, t, At(k.icnt, t, 0));
        Listed(Tick(q, k), t, At(k.icnt, t, 0));
      }
    }
  }

  lemma TickKeeps(q: seq<Due>, k: Kinds)
    requires Ready(q) && forall i :: 0 <= i < |q| ==> 1 <= At(k.icnt, q[i].timer, 0) <= 0xffff
    ensures Ready(Tick(q, k))
    ensures forall t :: t in Timers(Tick(q, k)) <==> t in Timers(q) && !(t in Expiring(q) && !At(k.periodic, t, false))
    ensures forall t :: t in Expiring(q) ==> t in Timers(q)
  {
    hide Ready, Expiring, Timers, Tick;
    TickExact(q, k);
    forall t
      ensures t in Timers(Tick(q, k)) <==> t in Timers(q) && !(t in Expiring(q) && !At(k.periodic, t, false))
    {
      TickRunning(q, k, t);
    }
    forall t | t in Expiring(q)
      ensures t in Timers(q)
    {
      Listed(q, t, 1);
    }
  }
}

/** rt_CMSIS.c: milliseconds to ticks. */
module TickCount {

  const WORD: nat := 0x1_0000_0000
  const WAIT_FOREVER: nat := 0xffff_ffff

  /** Unsigned division. */
  function Quotient(x: nat, d: nat): (q: nat)
    requires d > 0
    ensures q * d <= x < q * d + d
  {
    if x < d then 0
    else
      var q := Quotient(x - d, d);
      assert (q + 1) * d == q * d + d;
      q + 1
  }

  /** rt_ms2tick in 32-bit arithmetic; clockrate is the length of a tick in microseconds. */
  function Ms2Tick(millisec: nat, clockrate: nat): (tick: nat)
    requires millisec < WORD && 0 < clockrate < WORD
  {
    if millisec == WAIT_FOREVER then 0xffff
    else if millisec > 4000000 then 0xfffe
    else
      var tick := Quotient((1000 * millisec + clockrate - 1) % WORD, clockrate);
      if tick > 0xfffe then 0xfffe else tick
  }

  /** The sum that rt_ms2tick divides fits 32 bits, or is not formed. */
  predicate SumFits(millisec: nat, clockrate: nat) {
    millisec > 4000000 || 1000 * millisec + clockrate <= WORD
  }

  /**
   * The result is the smallest number of ticks that cover the time, at most 0xfffe; 0xffff stands for
   * no time-out only.
   */
  lemma TicksCover(millisec: nat, clockrate: nat)
    requires millisec < WORD && 0 < clockrate < WORD && SumFits(millisec, clockrate)
    ensures var r := Ms2Tick(millisec, clockrate);
            && (r == 0xffff <==> millisec == WAIT_FOREVER)
            && (millisec <= 4000000 && r < 0xfffe ==> r * clockrate >= 1000 * millisec)
            && (millisec <= 4000000 && r > 0 ==> (r - 1) * clockrate < 1000 * millisec)
            && (r == 0 <==> millisec == 0)
  {
    hide Quotient;
    if millisec <= 4000000 {
      var x := 1000 * millisec + clockrate - 1;
      NoWrap(x);
      Rounded(1000 * millisec, clockrate, Quotient(x, clockrate), Ms2Tick(millisec, clockrate));
    }
  }

  /** A result below the cap covers the time exactly if that sum does not wrap: else it is 13 ticks or less, and too short. */
  lemma CoversExactly(millisec: nat, clockrate: nat)
    requires millisec <= 4000000 && 0 < clockrate < WORD
    ensures (Ms2Tick(millisec, clockrate) < 0xfffe ==> Ms2Tick(millisec, clockrate) * clockrate >= 1000 * millisec) <==>
            SumFits(millisec, clockrate)
  {
    hide Quotient;
    if SumFits(millisec, clockrate) {
      TicksCover(millisec, clockrate);
    } else {
      var x := 1000 * millisec + clockrate - 1;
      WrapsOnce(x);
      var t := Quotient(x - WORD, clockrate);
      SmallQuotient(t, clockrate, x - WORD);
    }
  }

  lemma WrapsOnce(x: nat)
    requires WORD <= x < 2 * WORD
    ensures x % WORD == x - WORD
  {
  }

  lemma SmallQuotient(t: nat, d: nat, x: nat)
    requires t * d <= x && d > WORD - 4000000000 && x < 4000000000
    ensures t < 14
  {
    if t >= 14 {
      Monotone(14, t, d);
    }
  }

  /** At the largest time and a tick of 4000 seconds the sum wraps, and the time-out is no tick at all. */
  lemma LongTicksWrap()
    ensures Ms2Tick(4000000, 4000000000) == 0 && !SumFits(4000000, 4000000000)
  {
    hide Quotient;
    WrapsOnce(7999999999);
    var t := Quotient(3705032703, 4000000000);
  }

  lemma NoWrap(x: nat)
    requires x < WORD
    ensures x % WORD == x
  {
  }

  /** Rounding up, with a cap. */
  lemma Rounded(n: nat, d: nat, t: nat, r: nat)
    requires d > 0 && t * d <= n + d - 1 < t * d + d && r == if t > 0xfffe then 0xfffe else t
    ensures r < 0xfffe ==> r * d >= n
    ensures r > 0 ==> (r - 1) * d < n
    ensures r == 0 <==> n == 0
  {
    Monotone(r, t, d);
    if n == 0 && t > 0 {
      Monotone(1, t, d);
    }
  }

  lemma Monotone(a: nat, b: nat, d: nat)
    requires a <= b && d > 0
    ensures a * d <= b * d && (a > 0 ==> (a - 1) * d == a * d - d) && (a * d == 0 <==> a == 0)
  {
  }
}
