/** Event flags bit by bit. */
module EventBits {
  import opened RtxSched
  import opened RtxSpec

  /** Event flag i of 16. */
  function Flag(i: nat): (f: bv16)
    requires i < 16
  {
    if i == 0 then 0x0001 else if i == 1 then 0x0002 else if i == 2 then 0x0004 else if i == 3 then 0x0008
    else if i == 4 then 0x0010 else if i == 5 then 0x0020 else if i == 6 then 0x0040 else if i == 7 then 0x0080
    else if i == 8 then 0x0100 else if i == 9 then 0x0200 else if i == 10 then 0x0400 else if i == 11 then 0x0800
    else if i == 12 then 0x1000 else if i == 13 then 0x2000 else if i == 14 then 0x4000 else 0x8000
  }

  predicate Touches(e: bv16, f: bv16) {
    e & f != 0
  }

  /** Flag i is set in e. */
  predicate Bit(e: bv16, i: nat)
    requires i < 16
  {
    Touches(e, Flag(i))
  }

  /** Every flag of w is set in e. */
  predicate AllSet(e: bv16, w: bv16) {
    forall i :: 0 <= i < 16 && Bit(w, i) ==> Bit(e, i)
  }

  /** Some flag of w is set in e. */
  predicate SomeSet(e: bv16, w: bv16) {
    exists i :: 0 <= i < 16 && Bit(w, i) && Bit(e, i)
  }

  /** The flags e end a wait for w in state st. */
  predicate Met(st: TaskState, e: bv16, w: bv16) {
    (st == WAIT_AND && AllSet(e, w)) || (st == WAIT_OR && SomeSet(e, w))
  }

  /** A word other than 0 has a flag set. */
  lemma SomeFlag(x: bv16) returns (i: nat)
    requires x != 0
    ensures i < 16 && Bit(x, i)
  {
    i := if x & 0x0001 != 0 then 0 else if x & 0x0002 != 0 then 1 else if x & 0x0004 != 0 then 2
         else if x & 0x0008 != 0 then 3 else if x & 0x0010 != 0 then 4 else if x & 0x0020 != 0 then 5
         else if x & 0x0040 != 0 then 6 else if x & 0x0080 != 0 then 7 else if x & 0x0100 != 0 then 8
         else if x & 0x0200 != 0 then 9 else if x & 0x0400 != 0 then 10 else if x & 0x0800 != 0 then 11
         else if x & 0x1000 != 0 then 12 else if x & 0x2000 != 0 then 13 else if x & 0x4000 != 0 then 14 else 15;
  }

  /** A flag is in a word as a whole or not at all. */
  predicate Whole(e: bv16, f: bv16) {
    f != 0 && (e & f == 0 || e & f == f)
  }

  lemma FlagWhole(e: bv16, i: nat)
    requires i < 16
    ensures Whole(e, Flag(i))
  {
  }

  lemma AndWhole(e: bv16, w: bv16, f: bv16)
    requires f != 0 && (e & f == 0 || e & f == f) && (w & f == 0 || w & f == f)
    ensures (e & w) & f != 0 <==> e & f != 0 && w & f != 0
  {
    assert (e & w) & f == (e & f) & (w & f);
  }

  lemma WithoutWhole(e: bv16, w: bv16, f: bv16)
    requires f != 0 && (e & f == 0 || e & f == f) && (w & f == 0 || w & f == f)
    ensures (e & !w) & f != 0 <==> e & f != 0 && w & f == 0
  {
    assert (e & !w) & f == (e & f) & !(w & f);
  }

  lemma AndFlag(e: bv16, w: bv16, f: bv16)
    requires Whole(e, f) && Whole(w, f)
    ensures Touches(e & w, f) <==> Touches(e, f) && Touches(w, f)
    ensures Touches(e & !w, f) <==> Touches(e, f) && !Touches(w, f)
  {
    AndWhole(e, w, f);
    WithoutWhole(e, w, f);
  }

  lemma OrFlag(e: bv16, w: bv16, f: bv16)
    ensures Touches(e | w, f) <==> Touches(e, f) || Touches(w, f)
  {
    assert (e | w) & f == (e & f) | (w & f);
  }

  /** The flag operations flag by flag. */
  lemma FlagBits(e: bv16, w: bv16, i: nat)
    requires i < 16
    ensures Bit(Merge(e, w), i) <==> Bit(e, i) || Bit(w, i)
    ensures Bit(Common(e, w), i) <==> Bit(e, i) && Bit(w, i)
    ensures Bit(Without(e, w), i) <==> Bit(e, i) && !Bit(w, i)
  {
    hide Flag, Touches, Whole;
    FlagWhole(e, i);
    FlagWhole(w, i);
    AndFlag(e, w, Flag(i));
    OrFlag(e, w, Flag(i));
  }

  lemma HasAllBits(e: bv16, w: bv16)
    ensures HasAll(e, w) <==> AllSet(e, w)
  {
    hide Bit, Merge;
    if HasAll(e, w) {
      forall i | 0 <= i < 16 && Bit(w, i)
        ensures Bit(e, i)
      {
        FlagBits(e, w, i);
      }
    } else {
      Lacking(e, w);
      var i := SomeFlag(Without(w, e));
      FlagBits(w, e, i);
    }
  }

  lemma Lacking(e: bv16, w: bv16)
    requires e & w != w
    ensures Without(w, e) != 0
  {
  }

  lemma HasAnyBits(e: bv16, w: bv16)
    ensures HasAny(e, w) <==> SomeSet(e, w)
  {
    hide Bit, Merge, Without;
    if HasAny(e, w) {
      var i := SomeFlag(Common(e, w));
      FlagBits(e, w, i);
    } else if SomeSet(e, w) {
      var i :| 0 <= i < 16 && Bit(w, i) && Bit(e, i);
      FlagBits(e, w, i);
      NoFlag(i);
    }
  }

  lemma NoFlag(i: nat)
    requires i < 16
    ensures !Bit(0, i)
  {
  }

  lemma MetIsSatisfied(st: TaskState, e: bv16, w: bv16)
    ensures Met(st, e, w) <==> Satisfies(st, e, w)
  {
    HasAllBits(e, w);
    HasAnyBits(e, w);
  }
}

/** What the event flag calls do, flag by flag. */
module RtxEvents {
  import opened Links
  import opened TaskLists
  import opened RtxOrder
  import opened Delays
  import opened RtxSched
  import opened RtxRest
  import opened RtxSpec
  import opened EventBits
  import opened RtxObjects
  import opened RtxMail
  import opened RtxFacts
  import opened RtxKeeps
  import opened RtxIsr
  import opened RtxTimes

  /** The calling task's flags satisfy its wait for w: all of them for an AND wait, one of them for an OR wait. */
  predicate Enough(and: bool, e: bv16, w: bv16) {
    if and then AllSet(e, w) else SomeSet(e, w)
  }

  lemma RestCommits(c: Core)
    requires AtRest(c)
    ensures Commit(c) == c
  {
  }

  /** Tasks other than t have the same flags, wanted flags and results. */
  ghost predicate OnlyFlags(k: KState, k': KState, t: Ptr) {
    && t in k'.events && t in k'.waits && t in k'.ret
    && k'.events == k.events[t := k'.events[t]] && k'.waits == k.waits[t := k'.waits[t]] && k'.ret == k.ret[t := k'.ret[t]]
  }

  /**
   * A wait for flags succeeds exactly when all of them (in an OR wait: one of them) are set, and takes exactly the
   * wanted ones; otherwise the caller keeps its flags, and waits for exactly the wanted ones unless its time-out is 0.
   */
  lemma WaitTakesFlags(k: KState, flags: bv16, n: nat, and: bool)
    requires KInv(k) && Legal(k, WaitEvt(flags, n, and))
    ensures var k', run, e := Do(k, WaitEvt(flags, n, and)), k.c.run, At(k.events, k.c.run, 0);
            var met := Enough(and, e, flags);
            && OnlyFlags(k, k', run)
            && k'.ret[run] == Code(if met then OS_R_EVT else OS_R_TMO)
            && (forall i :: 0 <= i < 16 ==> (Bit(k'.events[run], i) <==> Bit(e, i) && !(met && Bit(flags, i))))
            && (if met || n == 0 then k'.c == k.c
                else k'.c.State(run) == (if and then WAIT_AND else WAIT_OR) && k'.c.Live(run))
            && (!met ==> k'.waits[run] == flags)
            && (met && !and ==> forall i :: 0 <= i < 16 ==> (Bit(k'.waits[run], i) <==> Bit(flags, i) && Bit(e, i)))
  {
    hide KInv, AtRest, Apply, HasAll, HasAny, AllSet, SomeSet, Without, Common, Bit, Block, Legal;
    KInvObjects(k);
    RestDelays(k.c);
    RestCommits(k.c);
    var e := At(k.events, k.c.run, 0);
    FlagsIn(k, k.c.run);
    WaitShape(k, flags, n, and);
    WaitApplies(k, WaitEvt(flags, n, and));
    forall i | 0 <= i < 16
      ensures Bit(Without(e, flags), i) <==> Bit(e, i) && !Bit(flags, i)
      ensures Bit(Common(e, flags), i) <==> Bit(flags, i) && Bit(e, i)
    {
      FlagBits(e, flags, i);
    }
    if !Enough(and, e, flags) && n > 0 {
      CallWaits(k, WaitEvt(flags, n, and));
    }
  }

  lemma EnoughIs(and: bool, e: bv16, w: bv16)
    ensures Enough(and, e, w) <==> if and then HasAll(e, w) else HasAny(e, w)
  {
    HasAllBits(e, w);
    HasAnyBits(e, w);
  }

  lemma NoWait(c: Core, st: TaskState)
    ensures Block(c, 0, st) == c
  {
  }

  lemma WaitShape(k: KState, flags: bv16, n: nat, and: bool)
    requires k.c.run in k.events && k.c.run in k.waits
    ensures var r, run, e := EvtWait(k, flags, n, and), k.c.run, At(k.events, k.c.run, 0);
            var met := Enough(and, e, flags);
            && r.events == k.events[run := if met then Without(e, flags) else e]
            && r.waits == k.waits[run := if !met then flags else if and then At(k.waits, run, 0) else Common(e, flags)]
            && r.ret == k.ret[run := Code(if met then OS_R_EVT else OS_R_TMO)] && (met || n == 0 ==> r.c == k.c)
  {
    hide HasAll, HasAny, AllSet, SomeSet, Without, Common, Block;
    EnoughIs(and, k.events[k.c.run], flags);
    NoWait(k.c, if and then WAIT_AND else WAIT_OR);
    assert k.events[k.c.run := k.events[k.c.run]] == k.events;
    assert k.waits[k.c.run := k.waits[k.c.run]] == k.waits;
  }

  /** With flags added to e, every flag of w is there. */
  predicate AllCome(e: bv16, flags: bv16, w: bv16) {
    forall i :: 0 <= i < 16 && Bit(w, i) ==> Bit(e, i) || Bit(flags, i)
  }

  predicate SomeCome(e: bv16, flags: bv16, w: bv16) {
    exists i :: 0 <= i < 16 && Bit(w, i) && (Bit(e, i) || Bit(flags, i))
  }

  lemma MergedCome(e: bv16, flags: bv16, w: bv16)
    ensures AllSet(Merge(e, flags), w) <==> AllCome(e, flags, w)
    ensures SomeSet(Merge(e, flags), w) <==> SomeCome(e, flags, w)
  {
    hide Merge, Bit;
    forall i | 0 <= i < 16
      ensures Bit(Merge(e, flags), i) <==> Bit(e, i) || Bit(flags, i)
    {
      FlagBits(e, flags, i);
    }
  }

  /** Setting flags ends the wait of t: all that it wants are there (in an OR wait: one of them). */
  ghost predicate Ends(k: KState, t: Ptr, flags: bv16) {
    match k.c.State(t)
    case WAIT_AND => AllCome(At(k.events, t, 0), flags, At(k.waits, t, 0))
    case WAIT_OR => SomeCome(At(k.events, t, 0), flags, At(k.waits, t, 0))
    case _ => false
  }

  lemma EndsIsCompletes(k: KState, t: Ptr, flags: bv16)
    ensures Ends(k, t, flags) <==> Completes(k, t, flags)
  {
    hide AllSet, SomeSet, HasAll, HasAny, AllCome, SomeCome, Merge;
    MergedCome(At(k.events, t, 0), flags, At(k.waits, t, 0));
    HasAllBits(Merge(At(k.events, t, 0), flags), At(k.waits, t, 0));
    HasAnyBits(Merge(At(k.events, t, 0), flags), At(k.waits, t, 0));
  }

  /** The updates of Signal as map updates. */
  lemma SignalShape(k: KState, t: Ptr, flags: bv16)
    requires t in k.events && t in k.waits && t in k.ret
    ensures var r, e, w := Signal(k, t, flags), Merge(k.events[t], flags), k.waits[t];
            var done, w' := Completes(k, t, flags), if k.c.State(t) == WAIT_OR then Common(w, e) else w;
            && r.events == k.events[t := if done then Without(e, w) else e]
            && r.waits == k.waits[t := if done then w' else w] && r.ret == k.ret[t := if done then Signals(w') else k.ret[t]]
            && (!done ==> r.waits == k.waits && r.ret == k.ret)
  {
    hide Merge, Common, Without, Completes;
    assert k.waits[t := k.waits[t]] == k.waits && k.ret[t := k.ret[t]] == k.ret;
  }

  /** The flags that a task is left with, and those that it gets. */
  lemma SignalBits(e: bv16, w: bv16, flags: bv16, i: nat)
    requires i < 16
    ensures Bit(Merge(e, flags), i) <==> Bit(e, i) || Bit(flags, i)
    ensures Bit(Without(Merge(e, flags), w), i) <==> (Bit(e, i) || Bit(flags, i)) && !Bit(w, i)
    ensures Bit(Common(w, Merge(e, flags)), i) <==> Bit(w, i) && (Bit(e, i) || Bit(flags, i))
  {
    hide Bit, Merge, Common, Without;
    FlagBits(e, flags, i);
    FlagBits(Merge(e, flags), w, i);
    FlagBits(w, Merge(e, flags), i);
  }

  /** The wait that ends: t can run, and has no time-out any more. */
  lemma EndedCore(c: Core, t: Ptr)
    requires DelayOk(c.d)
    ensures var c' := Commit(Dispatch(c.(d := DelayDrop(c.d, t)), t));
            Up(c'.State(t)) && forall r :: Delay(t, r) !in c'.d
  {
    hide DelayDrop, DelayOk, Ins, InsertPos;
    DropKeepsOthers(c.d, t);
  }

  /**
   * Setting flags adds exactly these. It ends the wait of the task exactly when all flags that the task wants are there
   * (in an OR wait: one of them): it can run, its time-out is gone, it gets the flags that ended the wait, and the wanted
   * flags are cleared. Otherwise nothing else changes. From the queue of an interrupt handler it is the same.
   */
  lemma SetEndsWait(k: KState, t: Ptr, flags: bv16)
    requires KInv(k) && Legal(k, SetEvt(t, flags)) && t in k.c.active
    ensures var k', e, w := Do(k, SetEvt(t, flags)), At(k.events, t, 0), At(k.waits, t, 0);
            var met := Ends(k, t, flags);
            && OnlyFlags(k, k', t) && Do(k, PendSV([EvtReq(t, flags)])) == k'
            && (forall i :: 0 <= i < 16 ==>
                  (Bit(k'.events[t], i) <==> (Bit(e, i) || Bit(flags, i)) && !(met && Bit(w, i))))
            && (met ==>
                  && Up(k'.c.State(t)) && (forall r :: Delay(t, r) !in k'.c.d) && k'.ret[t].Signals?
                  && forall i :: 0 <= i < 16 ==>
                       (Bit(k'.ret[t].flags, i) <==> Bit(w, i) && (k.c.State(t) == WAIT_OR ==> Bit(e, i) || Bit(flags, i))))
            && (!met ==> k'.c == k.c && k'.waits == k.waits && k'.ret == k.ret)
  {
    hide KInv, AtRest, Signal, Completes, Ends, Bit, Dispatch, DelayOk, DelayDrop, Merge, Without, Common, PopReq, EvtPsh;
    KInvObjects(k);
    RestDelays(k.c);
    RestCommits(k.c);
    EndsIsCompletes(k, t, flags);
    ActiveFlags(k, t);
    SignalShape(k, t, flags);
    SignalDelay(k, t, flags);
    forall i | 0 <= i < 16
      ensures Bit(Merge(k.events[t], flags), i) <==> Bit(k.events[t], i) || Bit(flags, i)
      ensures Bit(Without(Merge(k.events[t], flags), k.waits[t]), i) <==>
                (Bit(k.events[t], i) || Bit(flags, i)) && !Bit(k.waits[t], i)
      ensures Bit(Common(k.waits[t], Merge(k.events[t], flags)), i) <==>
                Bit(k.waits[t], i) && (Bit(k.events[t], i) || Bit(flags, i))
    {
      SignalBits(k.events[t], k.waits[t], flags, i);
    }
    EndedCore(k.c, t);
    SameFromQueue(k, t, flags);
  }

  lemma ActiveFlags(k: KState, t: Ptr)
    requires KInv(k) && t in k.c.active
    ensures t in k.c.g.tasks && t in k.events && t in k.waits && t in k.ret
  {
    assert FlagsOk(k, t);
  }

  lemma SameFromQueue(k: KState, t: Ptr, flags: bv16)
    requires AtRest(k.c) && t in k.c.active
    ensures Do(k, PendSV([EvtReq(t, flags)])) == Do(k, SetEvt(t, flags))
  {
    hide AtRest, EvtSet, PopReq;
    DrainEqualsCalls(k, [EvtReq(t, flags)]);
    assert [EvtReq(t, flags)][1..] == [];
  }

  /** Clearing flags clears exactly these, and changes nothing else. */
  lemma ClearTakesFlags(k: KState, t: Ptr, flags: bv16)
    requires KInv(k) && Legal(k, ClrEvt(t, flags)) && t in k.c.active
    ensures var k' := Do(k, ClrEvt(t, flags));
            && t in k'.events && k' == k.(events := k.events[t := k'.events[t]])
            && forall i :: 0 <= i < 16 ==> (Bit(k'.events[t], i) <==> Bit(At(k.events, t, 0), i) && !Bit(flags, i))
  {
    hide KInv, AtRest, Bit, Without;
    KInvObjects(k);
    RestCommits(k.c);
    forall i | 0 <= i < 16
      ensures Bit(Without(At(k.events, t, 0), flags), i) <==> Bit(At(k.events, t, 0), i) && !Bit(flags, i)
    {
      FlagBits(At(k.events, t, 0), flags, i);
    }
  }
}
