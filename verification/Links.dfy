/** Singly and doubly linked lists threaded through pointer fields, seen as sequences. */
module Links {

  /** Address of a control block; component maps give the fields of every block. */
  type Ptr = int

  const NULL: Ptr := 0
  const RDY: Ptr := 1 // &os_rdy, head of the ready list
  const DLY: Ptr := 2 // &os_dly, head of the delay list

  /** Field lookup with a default for blocks that have no such field. */
  function At<V>(m: map<Ptr, V>, t: Ptr, none: V): (v: V) {
    if t in m then m[t] else none
  }

  function Ins<T>(s: seq<T>, i: nat, x: T): (r: seq<T>)
    requires i <= |s|
  {
    s[..i] + [x] + s[i..]
  }

  function Del<T>(s: seq<T>, i: nat): (r: seq<T>)
    requires i < |s|
  {
    s[..i] + s[i + 1..]
  }

  ghost predicate NoDup<T>(s: seq<T>) {
    forall i, j :: 0 <= i < j < |s| ==> s[i] != s[j]
  }

  lemma InsMembers<T>(s: seq<T>, i: nat, t: T)
    requires i <= |s|
    ensures forall x :: x in Ins(s, i, t) <==> x == t || x in s
  {
    assert s == s[..i] + s[i..];
  }

  lemma DelMembers<T>(s: seq<T>, i: nat)
    requires i < |s| && NoDup(s)
    ensures forall x :: x in Del(s, i) <==> x in s && x != s[i]
    ensures NoDup(Del(s, i))
  {
    assert s == s[..i] + [s[i]] + s[i + 1..];
  }

  lemma InsNoDup<T>(s: seq<T>, i: nat, t: T)
    requires NoDup(s) && t !in s && i <= |s|
    ensures NoDup(Ins(s, i, t))
  {
    var r := Ins(s, i, t);
    assert forall j :: 0 <= j < |r| ==> r[j] == if j < i then s[j] else if j == i then t else s[j - 1];
  }

  /** The node before position i of the list s headed by h. */
  function Before(h: Ptr, s: seq<Ptr>, i: nat): (p: Ptr)
    requires i <= |s|
  {
    if i == 0 then h else s[i - 1]
  }

  function After(s: seq<Ptr>, i: nat): (p: Ptr) {
    if i < |s| then s[i] else NULL
  }

  /** Following next from head h visits exactly s and then NULL. */
  ghost predicate Chain(next: map<Ptr, Ptr>, h: Ptr, s: seq<Ptr>) {
    && h in next && next[h] == After(s, 0)
    && forall i {:trigger next[s[i]]} {:trigger s[i] in next} :: 0 <= i < |s| ==>
         s[i] in next && next[s[i]] == After(s, i + 1)
  }

  /** The backward link of every node of s is its predecessor. */
  ghost predicate Back(prev: map<Ptr, Ptr>, h: Ptr, s: seq<Ptr>) {
    forall i {:trigger prev[s[i]]} {:trigger s[i] in prev} :: 0 <= i < |s| ==>
      s[i] in prev && prev[s[i]] == Before(h, s, i)
  }

  lemma ChainInsert(next: map<Ptr, Ptr>, h: Ptr, s: seq<Ptr>, i: nat, t: Ptr)
    requires Chain(next, h, s) && NoDup(s) && h !in s
    requires i <= |s| && t !in s && t != h
    ensures Chain(next[t := After(s, i)][Before(h, s, i) := t], h, Ins(s, i, t))
  {
    var s', next' := Ins(s, i, t), next[t := After(s, i)][Before(h, s, i) := t];
    forall j | 0 <= j < |s'|
      ensures s'[j] in next' && next'[s'[j]] == After(s', j + 1)
    {
      if j != i {
        assert s'[j] == s[if j < i then j else j - 1];
      }
    }
  }

  lemma BackInsert(prev: map<Ptr, Ptr>, h: Ptr, s: seq<Ptr>, i: nat, t: Ptr)
    requires Back(prev, h, s) && NoDup(s) && i <= |s| && t !in s
    ensures Back((if i < |s| then prev[s[i] := t] else prev)[t := Before(h, s, i)], h, Ins(s, i, t))
  {
    var s', prev' := Ins(s, i, t), (if i < |s| then prev[s[i] := t] else prev)[t := Before(h, s, i)];
    forall j | 0 <= j < |s'|
      ensures s'[j] in prev' && prev'[s'[j]] == Before(h, s', j)
    {
      if j != i {
        assert s'[j] == s[if j < i then j else j - 1];
      }
    }
  }

  lemma ChainDelete(next: map<Ptr, Ptr>, h: Ptr, s: seq<Ptr>, i: nat)
    requires Chain(next, h, s) && NoDup(s) && h !in s && i < |s|
    ensures Chain(next[Before(h, s, i) := After(s, i + 1)], h, Del(s, i))
  {
    var s', next' := Del(s, i), next[Before(h, s, i) := After(s, i + 1)];
    forall j | 0 <= j < |s'|
      ensures s'[j] in next' && next'[s'[j]] == After(s', j + 1)
    {
      assert s'[j] == s[if j < i then j else j + 1];
    }
  }

  lemma BackDelete(prev: map<Ptr, Ptr>, h: Ptr, s: seq<Ptr>, i: nat)
    requires Back(prev, h, s) && NoDup(s) && i < |s|
    ensures Back(if i + 1 < |s| then prev[s[i + 1] := Before(h, s, i)] else prev, h, Del(s, i))
  {
    var s' := Del(s, i);
    var prev' := if i + 1 < |s| then prev[s[i + 1] := Before(h, s, i)] else prev;
    forall j | 0 <= j < |s'|
      ensures s'[j] in prev' && prev'[s'[j]] == Before(h, s', j)
    {
      assert s'[j] == s[if j < i then j else j + 1];
    }
  }

  lemma ChainSkip(next: map<Ptr, Ptr>, h: Ptr, s: seq<Ptr>, x: Ptr, v: Ptr)
    requires Chain(next, h, s) && x != h && x !in s
    ensures Chain(next[x := v], h, s)
  {
    assert forall i :: 0 <= i < |s| ==> s[i] in s;
  }

  lemma BackSkip(prev: map<Ptr, Ptr>, h: Ptr, s: seq<Ptr>, x: Ptr, v: Ptr)
    requires Back(prev, h, s) && x !in s
    ensures Back(prev[x := v], h, s)
  {
    assert forall i :: 0 <= i < |s| ==> s[i] in s;
  }
}

/** All task lists of the kernel at once. */
module TaskLists {
  import opened Links

  /**
   * The lists by head. on[t] is the head of the list that holds t, or NULL; a stale task is on no
   * list but its back link was not reset when it was unlinked.
   */
  datatype Shape = Shape(tasks: set<Ptr>, lists: map<Ptr, seq<Ptr>>, on: map<Ptr, Ptr>, stale: set<Ptr>)

  /** No task is on two lists, or twice on one. */
  ghost predicate Separate(g: Shape) {
    && NULL !in g.tasks && RDY !in g.tasks && DLY !in g.tasks
    && RDY in g.lists && NULL !in g.lists && DLY !in g.lists
    && (forall h :: h in g.lists ==> h !in g.tasks && NoDup(g.lists[h]))
    && (forall h, i {:trigger g.lists[h][i]} :: h in g.lists && 0 <= i < |g.lists[h]| ==>
          g.lists[h][i] in g.tasks && g.lists[h][i] in g.on && g.on[g.lists[h][i]] == h)
    && (forall t :: t in g.tasks ==>
          t in g.on && (g.on[t] == NULL || (g.on[t] in g.lists && t in g.lists[g.on[t]])))
    && (forall t :: t in g.stale ==> t in g.tasks && g.on[t] == NULL)
  }

  /** The forward pointers thread every list. */
  ghost predicate Forward(g: Shape, lnk: map<Ptr, Ptr>) {
    && (forall t :: t in g.tasks ==> t in lnk)
    && (forall h :: h in g.lists ==> Chain(lnk, h, g.lists[h]))
  }

  /** The backward pointers make every list but the ready list doubly linked; the others are NULL. */
  ghost predicate Backward(g: Shape, rlnk: map<Ptr, Ptr>) {
    && (forall t :: t in g.tasks ==> t in rlnk && t in g.on)
    && (forall h :: h in g.lists && h != RDY ==> Back(rlnk, h, g.lists[h]))
    && (forall t :: t in g.tasks && t !in g.stale && (g.on[t] == NULL || g.on[t] == RDY) ==> rlnk[t] == NULL)
  }

  /** The pointer fields lnk and rlnk represent g. */
  ghost predicate Linked(g: Shape, lnk: map<Ptr, Ptr>, rlnk: map<Ptr, Ptr>) {
    Separate(g) && Forward(g, lnk) && Backward(g, rlnk)
  }

  /** t is a task on no list. */
  ghost predicate Loose(g: Shape, t: Ptr) {
    t in g.tasks && At(g.on, t, NULL) == NULL
  }

  /** t linked in front of the i-th task of list h. */
  ghost function Put(g: Shape, h: Ptr, i: nat, t: Ptr): (r: Shape)
    requires i <= |At(g.lists, h, [])|
  {
    g.(lists := g.lists[h := Ins(At(g.lists, h, []), i, t)], on := g.on[t := h], stale := g.stale - {t})
  }

  /** The i-th task of list h unlinked, its own links unchanged. */
  ghost function Cut(g: Shape, h: Ptr, i: nat): (r: Shape)
    requires h in g.lists && i < |g.lists[h]|
  {
    var t := g.lists[h][i];
    g.(lists := g.lists[h := Del(g.lists[h], i)], on := g.on[t := NULL], stale := g.stale + {t})
  }

  /** The head of list h taken off, with its links reset. */
  ghost function Pop(g: Shape, h: Ptr): (r: Shape) {
    var s := At(g.lists, h, []);
    if s == [] then g else g.(lists := g.lists[h := s[1..]], on := g.on[s[0] := NULL])
  }

  ghost function Fresh(g: Shape, t: Ptr): (r: Shape) {
    g.(stale := g.stale - {t})
  }

  lemma SeparatePut(g: Shape, h: Ptr, i: nat, t: Ptr)
    requires Separate(g) && Loose(g, t) && h in g.lists && i <= |g.lists[h]|
    ensures Separate(Put(g, h, i, t))
  {
    InsMembers(g.lists[h], i, t);
  }

  lemma SeparateCut(g: Shape, h: Ptr, i: nat)
    requires Separate(g) && h in g.lists && i < |g.lists[h]|
    ensures Separate(Cut(g, h, i))
  {
    var t, g' := g.lists[h][i], Cut(g, h, i);
    DelMembers(g.lists[h], i);
    assert forall x :: x in g.tasks && x != t && g.on[x] == h ==> x in g'.lists[h];
  }

  lemma SeparatePop(g: Shape, h: Ptr)
    requires Separate(g) && h in g.lists && g.lists[h] != []
    ensures Separate(Pop(g, h))
  {
    var t, s, s' := g.lists[h][0], g.lists[h], g.lists[h][1..];
    assert s == [t] + s';
    assert forall x :: x in g.tasks && x != t && g.on[x] == h ==> x in s';
  }

  lemma BeforeElsewhere(g: Shape, h: Ptr, i: nat, h': Ptr)
    requires Separate(g) && h in g.lists && i <= |g.lists[h]| && h' in g.lists && h' != h
    ensures Before(h, g.lists[h], i) != h' && Before(h, g.lists[h], i) !in g.lists[h']
  {
    if i > 0 {
      assert g.lists[h][i - 1] in g.lists[h];
    }
  }

  lemma ForwardPut(g: Shape, lnk: map<Ptr, Ptr>, h: Ptr, i: nat, t: Ptr)
    requires Separate(g) && Forward(g, lnk) && Loose(g, t) && h in g.lists && i <= |g.lists[h]|
    ensures Forward(Put(g, h, i, t), lnk[t := After(g.lists[h], i)][Before(h, g.lists[h], i) := t])
  {
    var s := g.lists[h];
    ChainInsert(lnk, h, s, i, t);
    forall h' | h' in g.lists && h' != h
      ensures Chain(lnk[t := After(s, i)][Before(h, s, i) := t], h', g.lists[h'])
    {
      ChainSkip(lnk, h', g.lists[h'], t, After(s, i));
      BeforeElsewhere(g, h, i, h');
      ChainSkip(lnk[t := After(s, i)], h', g.lists[h'], Before(h, s, i), t);
    }
  }

  lemma ForwardCut(g: Shape, lnk: map<Ptr, Ptr>, h: Ptr, i: nat)
    requires Separate(g) && Forward(g, lnk) && h in g.lists && i < |g.lists[h]|
    ensures Forward(Cut(g, h, i), lnk[Before(h, g.lists[h], i) := After(g.lists[h], i + 1)])
  {
    var s := g.lists[h];
    ChainDelete(lnk, h, s, i);
    forall h' | h' in g.lists && h' != h
      ensures Chain(lnk[Before(h, s, i) := After(s, i + 1)], h', g.lists[h'])
    {
      BeforeElsewhere(g, h, i, h');
      ChainSkip(lnk, h', g.lists[h'], Before(h, s, i), After(s, i + 1));
    }
  }

  /** The back links after an insertion in front of position i of list h. */
  ghost function LinkBack(rlnk: map<Ptr, Ptr>, h: Ptr, s: seq<Ptr>, i: nat, t: Ptr): (r: map<Ptr, Ptr>)
    requires i <= |s|
  {
    if h == RDY then rlnk[t := NULL]
    else (if i < |s| then rlnk[s[i] := t] else rlnk)[t := Before(h, s, i)]
  }

  /** The back links after unlinking position i of list h; its own link is left alone. */
  ghost function UnlinkBack(rlnk: map<Ptr, Ptr>, h: Ptr, s: seq<Ptr>, i: nat): (r: map<Ptr, Ptr>)
    requires i < |s|
  {
    if h != RDY && i + 1 < |s| then rlnk[s[i + 1] := Before(h, s, i)] else rlnk
  }

  lemma BackwardPut(g: Shape, rlnk: map<Ptr, Ptr>, h: Ptr, i: nat, t: Ptr)
    requires Separate(g) && Backward(g, rlnk) && Loose(g, t) && h in g.lists && i <= |g.lists[h]|
    ensures Backward(Put(g, h, i, t), LinkBack(rlnk, h, g.lists[h], i, t))
  {
    var s := g.lists[h];
    var rlnk' := LinkBack(rlnk, h, s, i, t);
    if h != RDY {
      BackInsert(rlnk, h, s, i, t);
    }
    forall h' | h' in g.lists && h' != h && h' != RDY
      ensures Back(rlnk', h', g.lists[h'])
    {
      if h != RDY && i < |s| {
        BackSkip(rlnk, h', g.lists[h'], s[i], t);
        BackSkip(rlnk[s[i] := t], h', g.lists[h'], t, rlnk'[t]);
      } else {
        BackSkip(rlnk, h', g.lists[h'], t, rlnk'[t]);
      }
    }
  }

  lemma BackwardCut(g: Shape, rlnk: map<Ptr, Ptr>, h: Ptr, i: nat)
    requires Separate(g) && Backward(g, rlnk) && h in g.lists && i < |g.lists[h]|
    ensures Backward(Cut(g, h, i), UnlinkBack(rlnk, h, g.lists[h], i))
  {
    var s := g.lists[h];
    if h != RDY {
      BackDelete(rlnk, h, s, i);
    }
    forall h' | h' in g.lists && h' != h && h' != RDY
      ensures Back(UnlinkBack(rlnk, h, s, i), h', g.lists[h'])
    {
      if h != RDY && i + 1 < |s| {
        BackSkip(rlnk, h', g.lists[h'], s[i + 1], Before(h, s, i));
      }
    }
  }

  lemma LinkedPut(g: Shape, lnk: map<Ptr, Ptr>, rlnk: map<Ptr, Ptr>, h: Ptr, i: nat, t: Ptr)
    requires Linked(g, lnk, rlnk) && Loose(g, t) && h in g.lists && i <= |g.lists[h]|
    ensures Linked(Put(g, h, i, t), lnk[t := After(g.lists[h], i)][Before(h, g.lists[h], i) := t],
                   LinkBack(rlnk, h, g.lists[h], i, t))
    ensures i < |g.lists[h]| ==> g.lists[h][i] != NULL
  {
    SeparatePut(g, h, i, t);
    ForwardPut(g, lnk, h, i, t);
    BackwardPut(g, rlnk, h, i, t);
  }

  lemma LinkedCut(g: Shape, lnk: map<Ptr, Ptr>, rlnk: map<Ptr, Ptr>, h: Ptr, i: nat)
    requires Linked(g, lnk, rlnk) && h in g.lists && i < |g.lists[h]|
    ensures Linked(Cut(g, h, i), lnk[Before(h, g.lists[h], i) := After(g.lists[h], i + 1)],
                   UnlinkBack(rlnk, h, g.lists[h], i))
  {
    SeparateCut(g, h, i);
    ForwardCut(g, lnk, h, i);
    BackwardCut(g, rlnk, h, i);
  }

  /** The pointer fields around position i of list h. */
  lemma LinkedAt(g: Shape, lnk: map<Ptr, Ptr>, rlnk: map<Ptr, Ptr>, h: Ptr, i: nat)
    requires Linked(g, lnk, rlnk) && h in g.lists && i < |g.lists[h]|
    ensures var s := g.lists[h];
            && s[i] in g.tasks && g.on[s[i]] == h && s[i] !in g.stale && s[i] in lnk && s[i] in rlnk
            && Before(h, s, i) in lnk && lnk[Before(h, s, i)] == s[i] && lnk[s[i]] == After(s, i + 1)
            && (lnk[s[i]] == NULL <==> i + 1 == |s|)
            && rlnk[s[i]] == (if h == RDY then NULL else Before(h, s, i))
            && Before(h, s, i) != NULL && Before(h, s, i) != s[i] && h != s[i]
  {
    var s := g.lists[h];
    assert g.lists[h][i] in g.tasks && g.on[g.lists[h][i]] == h;
    assert i + 1 < |s| ==> g.lists[h][i + 1] in g.tasks;
    assert Chain(lnk, h, s);
    if i > 0 {
      assert g.lists[h][i - 1] in g.tasks;
      assert lnk[s[i - 1]] == After(s, i);
    }
    assert h != RDY ==> Back(rlnk, h, s);
  }

  /** Resetting the links of a task on no list. */
  lemma LinkedReset(g: Shape, lnk: map<Ptr, Ptr>, rlnk: map<Ptr, Ptr>, t: Ptr)
    requires Linked(g, lnk, rlnk) && Loose(g, t)
    ensures Linked(Fresh(g, t), lnk[t := NULL], rlnk[t := NULL])
    ensures t !in g.stale ==> rlnk[t := NULL] == rlnk
  {
    forall h | h in g.lists
      ensures Chain(lnk[t := NULL], h, g.lists[h])
      ensures h != RDY ==> Back(rlnk[t := NULL], h, g.lists[h])
    {
      ChainSkip(lnk, h, g.lists[h], t, NULL);
      if h != RDY {
        BackSkip(rlnk, h, g.lists[h], t, NULL);
      }
    }
    assert Backward(Fresh(g, t), rlnk[t := NULL]);
  }

  lemma LinkedPop(g: Shape, lnk: map<Ptr, Ptr>, rlnk: map<Ptr, Ptr>, h: Ptr)
    requires Linked(g, lnk, rlnk) && h in g.lists && g.lists[h] != []
    ensures var s := g.lists[h];
            Linked(Pop(g, h), lnk[h := After(s, 1)][s[0] := NULL], UnlinkBack(rlnk, h, s, 0)[s[0] := NULL])
  {
    var s, g' := g.lists[h], Cut(g, h, 0);
    LinkedAt(g, lnk, rlnk, h, 0);
    LinkedCut(g, lnk, rlnk, h, 0);
    LinkedReset(g', lnk[h := After(s, 1)], UnlinkBack(rlnk, h, s, 0), s[0]);
    assert Del(s, 0) == s[1..];
    assert g.stale == g.stale + {s[0]} - {s[0]};
    assert Fresh(g', s[0]) == Pop(g, h);
  }

  /** The pointers seen at the head of a list. */
  lemma LinkedHead(g: Shape, lnk: map<Ptr, Ptr>, rlnk: map<Ptr, Ptr>, h: Ptr)
    requires Linked(g, lnk, rlnk) && h in g.lists
    ensures Chain(lnk, h, g.lists[h]) && (lnk[h] == NULL <==> g.lists[h] == []) && NULL !in g.lists[h]
    ensures forall i :: 0 <= i < |g.lists[h]| ==> g.lists[h][i] in g.tasks
  {
  }
}
