/** rt_List.c: the list operations on pointer fields, each proved against its effect on sequences. */
module RtxList {
  import opened Links
  import opened TaskLists
  import opened RtxOrder
  import opened Delays

  datatype Kind = TCB | MCB | SCB | MUCB | HCB

  predicate IsWaitKind(c: Kind) {
    c == SCB || c == MCB || c == MUCB
  }

  /** Control block types: tasks are TCBs, and the heads of wait lists are told from os_rdy. */
  ghost predicate Typed(g: Shape, kind: map<Ptr, Kind>) {
    && (forall t :: t in g.tasks ==> t in kind && kind[t] == TCB)
    && (forall h :: h in g.lists ==> h in kind && (h == RDY ==> kind[h] == HCB))
    && (forall h :: h in g.lists && h != RDY && g.lists[h] != [] ==> IsWaitKind(kind[h]))
  }

  /** The back-link writes shared by the insertions. */
  method LinkBackIn(rlnk: map<Ptr, Ptr>, t: Ptr, cb: Ptr, cb2: Ptr, semMbx: bool) returns (rlnk': map<Ptr, Ptr>)
    ensures rlnk' == if !semMbx then rlnk[t := NULL] else (if cb2 != NULL then rlnk[cb2 := t] else rlnk)[t := cb]
  {
    rlnk' := rlnk;
    if semMbx {
      if cb2 != NULL {
        rlnk' := rlnk'[cb2 := t];
      }
      rlnk' := rlnk'[t := cb];
    } else {
      rlnk' := rlnk'[t := NULL];
    }
  }

  /** The search loop of rt_put_prio. */
  method FindPrio(prio: map<Ptr, nat>, lnk: map<Ptr, Ptr>, ghost s: seq<Ptr>, h: Ptr, p: nat)
      returns (cb: Ptr, cb2: Ptr)
    requires Chain(lnk, h, s) && Known(prio, s) && NULL !in s
    ensures cb == Before(h, s, InsertPos(prio, s, p)) && cb2 == After(s, InsertPos(prio, s, p))
  {
    cb, cb2 := h, lnk[h];
    ghost var i := 0;
    while cb2 != NULL && p <= prio[cb2]
      invariant 0 <= i <= |s| && cb == Before(h, s, i) && cb2 == After(s, i)
      invariant forall j :: 0 <= j < i ==> At(prio, s[j], 0) >= p
      decreases |s| - i
    {
      cb := cb2;
      cb2 := lnk[cb2];
      i := i + 1;
    }
    assert i == InsertPos(prio, s, p);
  }

  /** rt_put_prio: queue t behind every task of its own or a higher priority. */
  method PutPrio(ghost g: Shape, kind: map<Ptr, Kind>, prio: map<Ptr, nat>,
                 lnk: map<Ptr, Ptr>, rlnk: map<Ptr, Ptr>, h: Ptr, t: Ptr)
      returns (lnk': map<Ptr, Ptr>, rlnk': map<Ptr, Ptr>)
    requires Linked(g, lnk, rlnk) && Loose(g, t) && t in prio
    requires h in g.lists && h in kind && IsWaitKind(kind[h]) == (h != RDY)
    requires Known(prio, g.lists[h])
    ensures Linked(Queue(g, prio, h, t), lnk', rlnk')
  {
    var semMbx := IsWaitKind(kind[h]);
    LinkedHead(g, lnk, rlnk, h);
    var cb, cb2 := FindPrio(prio, lnk, g.lists[h], h, prio[t]);
    LinkedPut(g, lnk, rlnk, h, InsertPos(prio, g.lists[h], prio[t]), t);
    lnk' := lnk[t := cb2];
    lnk' := lnk'[cb := t];
    rlnk' := LinkBackIn(rlnk, t, cb, cb2, semMbx);
  }

  /** rt_get_first: take the task at the head of list h. */
  method GetFirst(ghost g: Shape, kind: map<Ptr, Kind>, lnk: map<Ptr, Ptr>, rlnk: map<Ptr, Ptr>, h: Ptr)
      returns (first: Ptr, lnk': map<Ptr, Ptr>, rlnk': map<Ptr, Ptr>)
    requires Linked(g, lnk, rlnk)
    requires h in g.lists && g.lists[h] != [] && h in kind && IsWaitKind(kind[h]) == (h != RDY)
    ensures first == g.lists[h][0] && first in g.tasks
    ensures Linked(Pop(g, h), lnk', rlnk')
  {
    LinkedPop(g, lnk, rlnk, h);
    LinkedAt(g, lnk, rlnk, h, 0);
    first := lnk[h];
    lnk', rlnk' := lnk[h := lnk[first]], rlnk;
    if IsWaitKind(kind[h]) {
      if lnk'[first] != NULL {
        rlnk' := rlnk'[lnk'[first] := h];
        lnk' := lnk'[first := NULL];
      }
      rlnk' := rlnk'[first := NULL];
    } else {
      lnk' := lnk'[first := NULL];
    }
    ghost var s := g.lists[h];
    assert lnk' == lnk[h := After(s, 1)][first := NULL];
    assert rlnk' == UnlinkBack(rlnk, h, s, 0)[first := NULL];
  }

  /** rt_put_rdy_first */
  method PutRdyFirst(ghost g: Shape, lnk: map<Ptr, Ptr>, rlnk: map<Ptr, Ptr>, t: Ptr)
      returns (lnk': map<Ptr, Ptr>, rlnk': map<Ptr, Ptr>)
    requires Linked(g, lnk, rlnk) && Loose(g, t)
    ensures Linked(Put(g, RDY, 0, t), lnk', rlnk')
  {
    LinkedHead(g, lnk, rlnk, RDY);
    LinkedPut(g, lnk, rlnk, RDY, 0, t);
    lnk' := lnk[t := lnk[RDY]];
    rlnk' := rlnk[t := NULL];
    lnk' := lnk'[RDY := t];
  }

  /** The first waiter of an object: the branch of the wait calls for an empty list. */
  method PutOnly(ghost g: Shape, lnk: map<Ptr, Ptr>, rlnk: map<Ptr, Ptr>, h: Ptr, t: Ptr)
      returns (lnk': map<Ptr, Ptr>, rlnk': map<Ptr, Ptr>)
    requires Linked(g, lnk, rlnk) && Loose(g, t) && h in g.lists && h != RDY && g.lists[h] == []
    ensures Linked(Put(g, h, 0, t), lnk', rlnk')
  {
    LinkedPut(g, lnk, rlnk, h, 0, t);
    lnk' := lnk[h := t];
    lnk' := lnk'[t := NULL];
    rlnk' := rlnk[t := h];
    assert lnk' == lnk[t := NULL][h := t];
  }

  /** rt_rmv_list: unlink t from whatever list it is on; its own links keep their old values. */
  method RmvList(ghost g: Shape, lnk: map<Ptr, Ptr>, rlnk: map<Ptr, Ptr>, t: Ptr)
      returns (lnk': map<Ptr, Ptr>, rlnk': map<Ptr, Ptr>)
    requires Linked(g, lnk, rlnk) && t in g.tasks && t !in g.stale
    ensures Linked(if g.on[t] == NULL then g else Unlink(g, t), lnk', rlnk')
  {
    ghost var h := g.on[t];
    if h != NULL {
      ghost var i := Index(g.lists[h], t);
      LinkedAt(g, lnk, rlnk, h, i);
      LinkedCut(g, lnk, rlnk, h, i);
    }
    lnk', rlnk' := lnk, rlnk;
    if rlnk[t] != NULL {
      lnk' := lnk'[rlnk[t] := lnk[t]];
      if lnk[t] != NULL {
        rlnk' := rlnk'[lnk[t] := rlnk[t]];
      }
      return;
    }
    LinkedHead(g, lnk, rlnk, RDY);
    lnk' := Unchain(lnk, g.lists[RDY], t);
  }

  /** The ready-list search of rt_rmv_list. */
  method Unchain(lnk: map<Ptr, Ptr>, ghost s: seq<Ptr>, t: Ptr) returns (lnk': map<Ptr, Ptr>)
    requires Chain(lnk, RDY, s) && NoDup(s) && NULL !in s && t in lnk && t != NULL
    ensures t !in s ==> lnk' == lnk
    ensures forall i :: 0 <= i < |s| && s[i] == t ==> lnk' == lnk[Before(RDY, s, i) := lnk[t]]
  {
    lnk' := lnk;
    var b := RDY;
    ghost var i := 0;
    while b != NULL
      invariant 0 <= i <= |s| + 1 && b == (if i <= |s| then Before(RDY, s, i) else NULL)
      invariant forall j :: 0 <= j < i && j < |s| ==> s[j] != t
      invariant lnk' == lnk
      decreases |s| + 1 - i
    {
      if lnk[b] == t {
        lnk' := lnk'[b := lnk[t]];
        return;
      }
      b := lnk[b];
      i := i + 1;
    }
  }

  /** rt_get_same_rdy_prio: the head of the ready list if it has the running task's priority, else NULL. */
  method GetSameRdyPrio(ghost g: Shape, prio: map<Ptr, nat>, lnk: map<Ptr, Ptr>, rlnk: map<Ptr, Ptr>, run: Ptr)
      returns (first: Ptr, lnk': map<Ptr, Ptr>)
    requires Linked(g, lnk, rlnk) && g.lists[RDY] != [] && Known(prio, g.lists[RDY]) && run in prio
    ensures prio[g.lists[RDY][0]] != prio[run] ==> first == NULL && lnk' == lnk
    ensures prio[g.lists[RDY][0]] == prio[run] ==>
              first == g.lists[RDY][0] && first in g.tasks && Linked(Pop(g, RDY), lnk', rlnk)
  {
    LinkedAt(g, lnk, rlnk, RDY, 0);
    first := lnk[RDY];
    lnk' := lnk;
    if prio[first] == prio[run] {
      LinkedPopKeep(g, lnk, rlnk);
      lnk' := lnk'[RDY := lnk[lnk[RDY]]];
      return;
    }
    first := NULL;
  }

  /** Taking the first ready task without touching its own link. */
  lemma LinkedPopKeep(g: Shape, lnk: map<Ptr, Ptr>, rlnk: map<Ptr, Ptr>)
    requires Linked(g, lnk, rlnk) && g.lists[RDY] != []
    ensures Linked(Pop(g, RDY), lnk[RDY := After(g.lists[RDY], 1)], rlnk)
  {
    var s := g.lists[RDY];
    LinkedAt(g, lnk, rlnk, RDY, 0);
    LinkedCut(g, lnk, rlnk, RDY, 0);
    ClearStale(Cut(g, RDY, 0), lnk[RDY := After(s, 1)], rlnk, s[0]);
    assert Del(s, 0) == s[1..];
    assert g.stale == g.stale + {s[0]} - {s[0]};
    assert Fresh(Cut(g, RDY, 0), s[0]) == Pop(g, RDY);
  }

  lemma ClearStale(g: Shape, lnk: map<Ptr, Ptr>, rlnk: map<Ptr, Ptr>, t: Ptr)
    requires Linked(g, lnk, rlnk) && Loose(g, t) && rlnk[t] == NULL
    ensures Linked(Fresh(g, t), lnk, rlnk)
  {
  }

  /** The search loop of rt_put_dly: the node to insert behind and the ticks up to its successor's time-out. */
  method FindDelay(ghost tasks: set<Ptr>, dlnk: map<Ptr, Ptr>, ghost blnk: map<Ptr, Ptr>, delta: map<Ptr, nat>,
                   ghost d: seq<Delay>, n: nat)
      returns (p: Ptr, sum: nat, last: bool)
    requires DelayLinked(tasks, dlnk, blnk, delta, d) && DelayOk(d) && n >= 1
    ensures var i := DelayPos(d, n);
            && p == Before(DLY, Tasks(d), i)
            && last == (i == |d|)
            && sum == if last then RemBefore(d, i) else d[i].rem
  {
    p, sum, last := DLY, 0, true;
    ghost var i := 0;
    DelayAt(tasks, dlnk, blnk, delta, d, 0);
    if dlnk[p] == NULL {
      return;
    }
    sum := delta[DLY];
    while sum < n
      invariant 0 <= i <= |d| && |d| > 0 && p == Before(DLY, Tasks(d), i)
      invariant sum == if i < |d| then d[i].rem else d[i - 1].rem
      invariant forall j :: 0 <= j < i ==> d[j].rem < n
      decreases |d| - i
    {
      DelayAt(tasks, dlnk, blnk, delta, d, i);
      if dlnk[p] == NULL {
        return;
      }
      p := dlnk[p];
      i := i + 1;
      DelayAt(tasks, dlnk, blnk, delta, d, i);
      sum := sum + delta[p];
    }
    last := false;
  }

  /** rt_put_dly: t times out after n ticks. */
  method PutDly(ghost tasks: set<Ptr>, dlnk: map<Ptr, Ptr>, blnk: map<Ptr, Ptr>, delta: map<Ptr, nat>,
                ghost d: seq<Delay>, t: Ptr, n: nat)
      returns (dlnk': map<Ptr, Ptr>, blnk': map<Ptr, Ptr>, delta': map<Ptr, nat>)
    requires DelayLinked(tasks, dlnk, blnk, delta, d) && DelayOk(d)
    requires t in tasks && t !in Tasks(d) && 1 <= n < NO_TIMEOUT
    ensures DelayLinked(tasks, dlnk', blnk', delta', DelayPut(d, t, n)) && DelayOk(DelayPut(d, t, n))
  {
    hide Delays.DelayLinked, Delays.DelayOk, Delays.DelayPos, Delays.DelayPut, U16;
    var p, sum, last := FindDelay(tasks, dlnk, blnk, delta, d, n);
    ghost var i := DelayPos(d, n);
    DelayLinkedPut(tasks, dlnk, blnk, delta, d, t, n);
    DelayAt(tasks, dlnk, blnk, delta, d, i);
    PutFits(d, n);
    if last {
      dlnk' := dlnk[t := NULL];
      dlnk' := dlnk'[p := t];
      blnk' := blnk[t := p];
      delta' := delta[p := U16(n - sum)];
      delta' := delta'[t := 0];
      assert delta' == delta[t := 0][p := U16(n - RemBefore(d, i))];
    } else {
      dlnk' := dlnk[t := dlnk[p]];
      dlnk' := dlnk'[p := t];
      blnk' := blnk[t := p];
      if dlnk'[t] != NULL {
        blnk' := blnk'[dlnk'[t] := t];
      }
      delta' := delta[t := U16(sum - n)];
      delta' := delta'[p := U16(delta'[p] - delta'[t])];
      assert blnk' == blnk[d[i].task := t][t := p];
    }
  }

  /** rt_rmv_dly: cancel the time-out of t, if any. */
  method RmvDly(ghost tasks: set<Ptr>, dlnk: map<Ptr, Ptr>, blnk: map<Ptr, Ptr>, delta: map<Ptr, nat>,
                ghost d: seq<Delay>, t: Ptr)
      returns (dlnk': map<Ptr, Ptr>, blnk': map<Ptr, Ptr>, delta': map<Ptr, nat>)
    requires DelayLinked(tasks, dlnk, blnk, delta, d) && DelayOk(d) && t in tasks
    ensures DelayLinked(tasks, dlnk', blnk', delta', DelayDrop(d, t)) && DelayOk(DelayDrop(d, t))
  {
    hide Delays.DelayLinked, Delays.DelayOk, Links.Del, U16;
    DropKeepsOthers(d, t);
    DelayOf(tasks, dlnk, blnk, delta, d, t);
    var b := blnk[t];
    dlnk', blnk', delta' := dlnk, blnk, delta;
    if b != NULL {
      ghost var i := Index(Tasks(d), t);
      DelayLinkedDrop(tasks, dlnk, blnk, delta, d, i);
      if i + 1 < |d| {
        U16Small(delta[b] + delta[t]);
      }
      dlnk' := dlnk'[b := dlnk'[t]];
      if dlnk'[t] != NULL {
        delta' := delta'[b := U16(delta'[b] + delta'[t])];
        blnk' := blnk'[dlnk'[t] := b];
        dlnk' := dlnk'[t := NULL];
      } else {
        delta' := delta'[b := 0];
      }
      blnk' := blnk'[t := NULL];
      assert dlnk' == dlnk[b := After(Tasks(d), i + 1)][t := NULL];
    }
  }

  /** What the delay fields of t say about its place in the list. */
  lemma DelayOf(tasks: set<Ptr>, dlnk: map<Ptr, Ptr>, blnk: map<Ptr, Ptr>, delta: map<Ptr, nat>,
                d: seq<Delay>, t: Ptr)
    requires DelayLinked(tasks, dlnk, blnk, delta, d) && DelayOk(d) && t in tasks
    ensures t in blnk && (blnk[t] == NULL <==> t !in Tasks(d))
    ensures t in Tasks(d) ==>
              var i := Index(Tasks(d), t);
              && blnk[t] == Before(DLY, Tasks(d), i) && blnk[t] != t && blnk[t] in dlnk && blnk[t] in delta
              && t in dlnk && dlnk[t] == After(Tasks(d), i + 1) && (dlnk[t] == NULL <==> i + 1 == |d|)
              && t in delta && (i + 1 < |d| ==> delta[blnk[t]] + delta[t] < NO_TIMEOUT)
  {
    hide Delays.Deltas, Links.Chain, Links.Back;
    if t in Tasks(d) {
      var i := Index(Tasks(d), t);
      DelayAt(tasks, dlnk, blnk, delta, d, i);
      DelayAt(tasks, dlnk, blnk, delta, d, i + 1);
    }
  }
}
