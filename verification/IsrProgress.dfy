/** What a handler and PendSV get done when nothing interrupts them, and when a request is turned away. */
module IsrProgress {
  import opened IsrQueue

  /** n accesses of whatever runs, with no new interrupt. */
  function Runs(s: State, n: nat): (r: State)
    decreases n
  {
    if n == 0 then s else Runs(Next(s), n - 1)
  }

  function Next(s: State): (r: State) {
    Step(s, Run)
  }

  lemma {:induction false} RunsTwice(s: State, m: nat, n: nat)
    ensures Runs(s, m + n) == Runs(Runs(s, m), n)
    decreases m
  {
    if m > 0 {
      RunsTwice(Next(s), m - 1, n);
    }
  }

  lemma RunsOne(s: State, n: nat)
    ensures Runs(s, n + 1) == Runs(Next(s), n) && Runs(s, 0) == s
  {
  }

  /** A request is turned away exactly if its handler finds the queue full, whatever has happened before. */
  lemma TurnedAway(s: State)
    requires s.stack != []
    ensures HandlerStep(s).stack != [] && |HandlerStep(s).stack| == |s.stack| ==>
              (Top(HandlerStep(s)).pc == Overflow && Top(s).pc != Overflow <==> Top(s).pc == Start && s.count == s.size)
  {
  }

  /** The frames below the running one. */
  function Below(s: State): (fs: seq<Frame>)
    requires s.stack != []
  {
    s.stack[..|s.stack| - 1]
  }

  /** A handler that is not interrupted turns its request away if the queue is full, and changes nothing. */
  lemma FullTurnsAway(s: State)
    requires s.stack != [] && Top(s).pc == Start && s.count == s.size
    ensures Runs(s, 2) == s.(stack := Below(s), monitor := false)
  {
    hide Runs;
    var s1 := Next(s);
    RunsOne(s, 1);
    RunsOne(s1, 0);
    RunsOne(Next(s1), 0);
    assert s1.stack[..|s1.stack| - 1] == Below(s);
  }

  /**
   * A handler that is not interrupted puts its request into the queue in seven accesses, unless the queue is full: the
   * request is the last one, its slot holds it, and count is one higher.
   */
  lemma HandlerQueues(s: State)
    requires Inv(s) && s.stack != [] && Top(s).pc == Start && s.count < s.size
    ensures var r, req := Runs(s, 7), Top(s).req;
            && r.stack == Below(s) && r.reserved == s.reserved + [req] && r.count == s.count + 1
            && r.handled == s.handled && r.done == s.done && r.drain == s.drain && r.last == s.last && r.size == s.size
            && s.first < |r.ids| == |s.ids| && s.first < |r.args| == |s.args|
            && r.ids == s.ids[s.first := req.id] && r.args == s.args[s.first := req.arg]
            && r.first == NextIndex(s.first, s.size)
  {
    hide Frames, Slots, DrainOk, MonitorOk, Runs;
    var req, fs := Top(s).req, Below(s);
    FrameOf(s);
    var s2 := OnTop(s, fs, req, Counted).(count := s.count + 1, monitor := false);
    var s4 := OnTop(s2, fs, req, Reserved(s.first, |s.reserved|))
      .(first := NextIndex(s.first, s.size), reserved := s.reserved + [req]);
    var s6 := OnTop(s4, fs, req, Finished).(ids := s.ids[s.first := req.id], args := s.args[s.first := req.arg]);
    CountRaised(s, fs, req);
    IndexTaken(s2, fs, req);
    SlotFilled(s4, fs, req);
    Returns(s6, fs, req);
    RunsTwice(s, 2, 5);
    RunsTwice(s2, 2, 3);
    RunsTwice(s4, 2, 1);
  }

  lemma FrameOf(s: State)
    requires s.stack != []
    ensures s == OnTop(s, Below(s), Top(s).req, Top(s).pc)
  {
    assert s.stack == Below(s) + [Top(s)];
  }

  /** s with a handler for req in state pc above the frames fs. */
  function OnTop(s: State, fs: seq<Frame>, req: Request, pc: Pc): (r: State) {
    s.(stack := fs + [Frame(req, pc)])
  }

  /** A new state of the running handler. */
  lemma NewPc(s: State, fs: seq<Frame>, req: Request, pc: Pc, pc': Pc)
    ensures WithTop(OnTop(s, fs, req, pc), pc') == OnTop(s, fs, req, pc') && Top(OnTop(s, fs, req, pc)) == Frame(req, pc)
  {
    assert (fs + [Frame(req, pc)])[|fs| := Frame(req, pc')] == fs + [Frame(req, pc')];
  }

  lemma RunsTwo(s: State)
    ensures Runs(s, 2) == Next(Next(s))
  {
    hide Next;
    assert Runs(Next(s), 1) == Next(Next(s)) by { RunsOne(Next(s), 0); RunsOne(Next(Next(s)), 0); }
  }

  lemma CountRaised(s: State, fs: seq<Frame>, req: Request)
    requires s == OnTop(s, fs, req, Start) && s.count < s.size
    ensures Runs(s, 2) == OnTop(s, fs, req, Counted).(count := s.count + 1, monitor := false)
  {
    hide Runs, Next, OnTop;
    var s1 := OnTop(s, fs, req, CountLoaded(s.count)).(monitor := true);
    CountRead(s, fs, req);
    CountWritten(s, fs, req);
    RunsTwo(s);
  }

  lemma CountRead(s: State, fs: seq<Frame>, req: Request)
    requires s == OnTop(s, fs, req, Start) && s.count < s.size
    ensures Next(s) == OnTop(s, fs, req, CountLoaded(s.count)).(monitor := true)
  {
    hide WithTop;
    NewPc(s, fs, req, Start, CountLoaded(s.count));
  }

  lemma CountWritten(s: State, fs: seq<Frame>, req: Request)
    ensures Next(OnTop(s, fs, req, CountLoaded(s.count)).(monitor := true)) ==
            OnTop(s, fs, req, Counted).(count := s.count + 1, monitor := false)
  {
    hide WithTop;
    NewPc(s.(monitor := true), fs, req, CountLoaded(s.count), Counted);
    assert OnTop(s, fs, req, CountLoaded(s.count)).(monitor := true) == OnTop(s.(monitor := true), fs, req, CountLoaded(s.count));
  }

  lemma IndexTaken(s: State, fs: seq<Frame>, req: Request)
    requires s == OnTop(s, fs, req, Counted)
    ensures Runs(s, 2) ==
            OnTop(s, fs, req, Reserved(s.first, |s.reserved|))
              .(first := NextIndex(s.first, s.size), monitor := false, reserved := s.reserved + [req])
  {
    hide WithTop, Runs;
    NewPc(s, fs, req, Counted, FirstLoaded(s.first));
    var s1 := OnTop(s, fs, req, FirstLoaded(s.first)).(monitor := true);
    NewPc(s1, fs, req, FirstLoaded(s.first), Reserved(s.first, |s.reserved|));
    RunsTwo(s);
  }

  lemma SlotFilled(s: State, fs: seq<Frame>, req: Request)
    requires s.stack != [] && Top(s).pc.Reserved? && Top(s).pc.idx < |s.ids| == |s.args|
    requires s == OnTop(s, fs, req, Top(s).pc)
    ensures Runs(s, 2) ==
            OnTop(s, fs, req, Finished).(ids := s.ids[Top(s).pc.idx := req.id], args := s.args[Top(s).pc.idx := req.arg])
  {
    hide WithTop, Runs;
    var i, k := Top(s).pc.idx, Top(s).pc.ticket;
    NewPc(s, fs, req, Reserved(i, k), IdWritten(i, k));
    var s1 := OnTop(s, fs, req, IdWritten(i, k)).(ids := s.ids[i := req.id]);
    NewPc(s1, fs, req, IdWritten(i, k), Finished);
    RunsTwo(s);
  }

  lemma Returns(s: State, fs: seq<Frame>, req: Request)
    requires s == OnTop(s, fs, req, Finished)
    ensures Runs(s, 1) == s.(stack := fs, monitor := false)
  {
    hide Runs;
    RunsOne(s, 0);
    RunsOne(Next(s), 0);
    assert (fs + [Frame(req, Finished)])[..|fs|] == fs;
  }

  // ----- PendSV

  /** PendSV handles the oldest request in five accesses. */
  lemma TakesOne(s: State)
    requires Inv(s) && s.stack == [] && s.drain.Check? && s.count > 0
    ensures var r := Runs(s, 5);
            && Inv(r) && r.stack == [] && r.drain.Check? && r.count == s.count - 1 && r.reserved == s.reserved
            && |s.handled| < |s.reserved| && r.handled == s.handled + [s.reserved[|s.handled|]]
  {
    hide Counts, Frames, Slots, DrainOk, MonitorOk, Runs;
    Waiting(s);
    var s1 := Next(s);
    var s2 := Next(s1);
    var s3 := Next(s2);
    var s4 := Next(s3);
    var s5 := Next(s4);
    StepKeeps(s, Run);
    StepKeeps(s1, Run);
    StepKeeps(s2, Run);
    StepKeeps(s3, Run);
    StepKeeps(s4, Run);
    DrainSteps(s);
    OldestOf(s, s5);
    RunsOne(s, 4);
    RunsOne(s1, 3);
    RunsOne(s2, 2);
    RunsOne(s3, 1);
    RunsOne(s4, 0);
    RunsOne(s5, 0);
  }

  /** With no handler active count is the number of requests to be handled. */
  lemma Waiting(s: State)
    requires Inv(s) && s.stack == [] && s.drain.Check?
    ensures s.count == |s.reserved| - |s.handled| && s.drain.idx < |s.ids| && |s.ids| == |s.args|
  {
  }

  lemma DrainSteps(s: State)
    requires s.stack == [] && s.drain.Check? && s.count > 0 && s.drain.idx < |s.ids| && |s.ids| == |s.args|
    ensures var r := Next(Next(Next(Next(Next(s)))));
            && r.stack == [] && r.drain.Check? && r.count == s.count - 1 && r.reserved == s.reserved
            && |r.handled| == |s.handled| + 1 && r.handled[..|s.handled|] == s.handled
  {
    var i := s.drain.idx;
    assert Next(s) == s.(drain := ReadId(i));
    var s2 := s.(drain := ReadArg(i, s.ids[i]));
    assert Next(Next(s)) == s2;
    var s3 := s.(drain := Dec(NextIndex(i, s.size)), handled := s.handled + [Request(s.ids[i], s.args[i])]);
    assert Next(s2) == s3;
    var s4 := s3.(drain := DecLoaded(NextIndex(i, s.size), s.count), monitor := true);
    assert Next(s3) == s4;
  }

  /** What is handled is what was reserved, in order. */
  lemma OldestOf(s: State, r: State)
    requires Inv(s) && Inv(r) && r.reserved == s.reserved
    requires |r.handled| == |s.handled| + 1 && r.handled[..|s.handled|] == s.handled
    ensures |s.handled| < |s.reserved| && r.handled == s.handled + [s.reserved[|s.handled|]]
  {
    hide Counts, Frames, Slots, MonitorOk;
    TakenFits(s);
    TakenFits(r);
    assert r.handled == r.handled[..|s.handled|] + [r.handled[|s.handled|]];
  }

  lemma TakenFits(s: State)
    requires Inv(s)
    ensures Taken(s) <= |s.reserved| && s.size > 0 && s.handled == s.reserved[..Taken(s)] && |s.handled| == Taken(s)
  {
  }

  lemma {:induction false} Drains(s: State)
    requires Inv(s) && s.stack == [] && s.drain.Check?
    ensures var r := Runs(s, 5 * s.count + 1);
            r.drain == Idle && r.count == 0 && r.stack == [] && r.handled == r.reserved == s.reserved
    decreases s.count
  {
    hide Inv, Runs;
    Waiting(s);
    if s.count == 0 {
      HandledAll(s);
      RunsOne(s, 0);
      RunsOne(Next(s), 0);
    } else {
      TakesOne(s);
      var s5 := Runs(s, 5);
      Drains(s5);
      RunsTwice(s, 5, 5 * s5.count + 1);
    }
  }

  lemma HandledAll(s: State)
    requires Inv(s) && s.stack == [] && s.drain.Check? && s.count == 0
    ensures s.handled == s.reserved && Next(s) == s.(last := s.drain.idx, drain := Idle)
  {
    hide Frames, Slots, MonitorOk;
    TakenFits(s);
  }

  /** A pass of PendSV that no handler interrupts handles every request in the queue and leaves it empty. */
  lemma PassEmpties(s: State)
    requires Inv(s) && s.stack == [] && s.drain == Idle
    ensures var r := Runs(s, 5 * s.count + 2); r.drain == Idle && r.count == 0 && r.handled == r.reserved == s.reserved
  {
    hide Inv, Runs;
    var s1 := Next(s);
    StepKeeps(s, Run);
    assert s1 == s.(drain := Check(s.last));
    Drains(s1);
    RunsOne(s, 5 * s.count + 1);
  }
}
