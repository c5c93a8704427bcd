/**
 What the run takes in and what it promises about goals: every accepted input is
 logged and answered once and in order, the inbox is open whenever the loop comes
 round, and goal markers follow their grammar.
 */
module Journal {
  import opened Transcript
  import opened Retry
  import opened AgentLoop

  /** What a goal marker obliges the run to do next. */
  datatype Due = Idle | Announce | Tell | Achieve | GiveUp

  datatype Story = Story(drained: seq<Said>, sets: nat, progress: nat, over: bool, due: Due, ok: bool)

  function ReadGoal(j: Story, a: Act): Story {
    match a
    case RunStarted => j.(sets := 0, progress := 0, over := false, ok := j.ok && j.due.Idle?)
    case RunResumed => j.(sets := 0, progress := 0, over := false, ok := j.ok && j.due.Idle?)
    case GoalProgressed(n) => j.(due := Tell, ok := j.ok && j.due.Announce? && n == j.progress)
    case GoalAchieved => j.(due := Idle, ok := j.ok && j.due.Achieve?)
    case GoalImpossible => j.(due := Idle, ok := j.ok && j.due.GiveUp?)
    case Wrote(GoalMark(kind, n)) =>
      var idle := j.ok && j.due.Idle? && !j.over;
      (match kind
       case GoalSet => j.(sets := j.sets + 1, ok := idle && j.sets == 0 && j.progress == 0 && n == 0)
       case Progress => j.(progress := n, due := Announce, ok := idle && n == j.progress + 1)
       case Achieved => j.(over := true, due := Achieve, ok := idle && n == j.progress)
       case Impossible => j.(over := true, due := GiveUp, ok := idle && n == j.progress))
    case Wrote(FeedbackUser(said)) =>
      if said.GoalFeedback? then j.(due := Idle, ok := j.ok && j.due.Tell?)
      else j.(ok := j.ok && j.due.Idle?)
    case _ => j.(ok := j.ok && j.due.Idle?)
  }

  function Read(j: Story, a: Act): Story {
    var k := ReadGoal(j, a);
    if a.Wrote? && a.line.DrainedUser? then k.(drained := j.drained + [a.line.said]) else k
  }

  function StoryOf(t: Trace): Story {
    if t == [] then Story([], 0, 0, false, Idle, true) else Read(StoryOf(t[..|t| - 1]), t[|t| - 1])
  }

  lemma Law()
    ensures forall t, a {:trigger Then(t, a)} :: StoryOf(Then(t, a)) == Read(StoryOf(t), a)
  {
    forall t: Trace, a: Act ensures StoryOf(Then(t, a)) == Read(StoryOf(t), a) {
      assert (t + [a])[..|t|] == t;
    }
  }

  // ------------------------------------------------------------- invariants

  /** Nothing accepted is lost, doubled or reordered: `before` was drained by earlier segments. */
  predicate Conserved(before: seq<Said>, s: State) {
    && s.inbox.arrived == s.inbox.consumed + s.inbox.pending
    && StoryOf(s.trace).drained == before + s.inbox.consumed
  }

  predicate Settled(s: State) {
    var j := StoryOf(s.trace);
    j.ok && j.due.Idle?
  }

  /** While the goal is only changed by the loop itself. */
  predicate Pursuing(s: State) {
    var j := StoryOf(s.trace);
    && Settled(s) && !j.over && j.progress == s.b.goals
    && (s.goal.Some? && s.goal.value.pendingSet ==> j.sets == 0 && j.progress == 0)
  }

  /** `own`: nobody but the loop has touched the goal. */
  predicate Kept(before: seq<Said>, own: bool, s: State) {
    Conserved(before, s) && (own ==> Pursuing(s))
  }

  /** What one stage may do to the budgets (nothing) and to the inbox (take in at most `n`). */
  predicate Moved(s: State, s1: State, n: nat) {
    && s1.b == s.b && s1.c.iteration == s.c.iteration
    && |s1.inbox.consumed| >= |s.inbox.consumed|
    && |s1.inbox.arrived| <= |s.inbox.arrived| + n
  }

  predicate Ended(before: seq<Said>, own: bool, s: State, outcome: Outcome) {
    && Conserved(before, s)
    && (own ==> Settled(s) && (StoryOf(s.trace).over ==> outcome.Success? && s.goal.None?))
  }

  // ------------------------------------------------------------- small steps

  lemma {:induction false} WriteUsersTold(t: Trace, drained: seq<Said>)
    ensures var j, k := StoryOf(t), StoryOf(WriteUsers(t, drained));
            k == j.(drained := j.drained + drained, ok := k.ok) && (j.due.Idle? ==> k.ok == j.ok)
    decreases |drained|
  {
    Law();
    hide StoryOf;
    if drained == [] {
      assert StoryOf(t).drained + drained == StoryOf(t).drained;
    } else {
      var t1 := Then(t, Wrote(DrainedUser(drained[0])));
      WriteUsersTold(t1, drained[1..]);
      assert StoryOf(t).drained + drained == StoryOf(t1).drained + drained[1..];
    }
  }

  lemma DrainKeeps(before: seq<Said>, own: bool, s: State)
    requires Kept(before, own, s)
    ensures Kept(before, own, Drain(s)) && Moved(s, Drain(s), 0) && Drain(s).inbox.pending == []
    ensures |Drain(s).inbox.consumed| == |s.inbox.consumed| + |s.inbox.pending|
  {
    hide StoryOf, PushUsers, WriteUsers;
    WriteUsersTold(s.trace, s.inbox.pending);
    assert s.inbox.arrived == (s.inbox.consumed + s.inbox.pending) + [];
    assert before + (s.inbox.consumed + s.inbox.pending) == before + s.inbox.consumed + s.inbox.pending;
  }

  lemma PushLateKeeps(before: seq<Said>, own: bool, s: State, typed: seq<Said>)
    requires Kept(before, own, s)
    ensures Kept(before, own, PushLate(s, typed)) && Moved(s, PushLate(s, typed), |typed|)
  {
    hide StoryOf;
    assert s.inbox.arrived + typed == s.inbox.consumed + (s.inbox.pending + typed);
  }

  lemma ArriveKeeps(before: seq<Said>, own: bool, s: State, typed: seq<Said>)
    requires Kept(before, own, s)
    ensures var s1 := Arrive(s, typed);
            && Kept(before, own, s1) && Moved(s, s1, |typed|)
            && s1.inbox.accepting == s.inbox.accepting && s1.trace == s.trace
            && (!s.inbox.accepting ==> s1 == s)
  {
    hide Kept;
    PushLateKeeps(before, own, s, typed);
  }

  lemma FlushKeeps(before: seq<Said>, own: bool, s: State)
    requires Kept(before, own, s)
    ensures Kept(before, own, Flush(s)) && Moved(s, Flush(s), 0) && Flush(s).inbox == s.inbox && Flush(s).goal == s.goal
  {
    hide StoryOf, Card;
    Law();
  }

  lemma InstallKeeps(before: seq<Said>, own: bool, s: State, es: seq<Entry>)
    requires Kept(before, own, s)
    ensures Kept(before, own, Install(s, es)) && Moved(s, Install(s, es), 0) && Install(s, es).inbox == s.inbox
  {
    hide StoryOf, Card, Flush;
    Law();
    FlushKeeps(before, own, s.(entries := es));
  }

  lemma MarkerKeeps(before: seq<Said>, own: bool, s: State)
    requires Kept(before, own, s)
    ensures Kept(before, own, MaybeSetMarker(s)) && Moved(s, MaybeSetMarker(s), 0) && MaybeSetMarker(s).inbox == s.inbox
  {
    hide StoryOf;
    Law();
  }

  lemma {:induction false} AskTold(t: Trace, es: seq<Entry>, a: Attempts, k: nat)
    requires k <= MAX_MODEL_RETRIES
    ensures var j, m := StoryOf(t), StoryOf(AskTrace(t, es, a, k));
            m == j.(ok := m.ok) && (j.due.Idle? ==> m.ok == j.ok)
    decreases MAX_MODEL_RETRIES - k
  {
    hide RetryDelay, StoryOf;
    Law();
    if Retries(a, k) && !a[k].cancelled {
      AskTold(Then(Then(t, Asked(es)), Retrying(k + 1, RetryDelay(k + 1))), es, a, k + 1);
    }
  }

  // ------------------------------------------------------------- stages

  lemma BoundaryKeeps(before: seq<Said>, own: bool, s: State, w: World)
    requires Kept(before, own, s)
    ensures var s1 := Boundary(s, w).s;
            Kept(before, own, s1) && Moved(s, s1, |w.typedBefore|) && s1.inbox.accepting == s.inbox.accepting
  {
    hide StoryOf, Drain, Arrive, MaybeSetMarker, Install;
    ArriveKeeps(before, own, s, w.typedBefore);
    var s1 := Arrive(s, w.typedBefore).(cancelled := s.cancelled || w.cancelBefore);
    DrainKeeps(before, own, s1);
    assert Drain(s1).inbox.accepting == s1.inbox.accepting by { DrainFrame(s1); }
    MarkerKeeps(before, own, Drain(s1));
    var s2 := MaybeSetMarker(Drain(s1));
    match w.compaction {
      case Summarised => InstallKeeps(before, own, s2, SUMMARY);
      case Replaced(es) => InstallKeeps(before, own, s2, es);
      case _ =>
    }
  }

  lemma DrainFrame(s: State)
    ensures Drain(s).inbox.accepting == s.inbox.accepting
    ensures Drain(s).goal == s.goal && Drain(s).cancelled == s.cancelled
  {
  }

  lemma ModelStepKeeps(before: seq<Said>, own: bool, s: State, w: World)
    requires Kept(before, own, s) && (own ==> w.goalEdit.KeepGoal?)
    ensures var s1 := ModelStep(s, w).0;
            Kept(before, own, s1) && Moved(s, s1, |w.typedDuringModel|) && s1.inbox.accepting == s.inbox.accepting
  {
    hide StoryOf, AskTrace, AskAtoms, Settle, Arrive;
    Law();
    var s1 := StartTurn(s);
    AskTold(s1.trace, s1.entries, w.attempts, 0);
    var s2 := TryModel(s1, w.streaming, w.attempts).0;
    var s3 := Do(s2, ModelFinished(s2.c.modelStep));
    assert Kept(before, own, s3);
    ArriveKeeps(before, own, s3, w.typedDuringModel);
  }

  lemma AccountKeeps(before: seq<Said>, own: bool, s: State, usage: Usage)
    requires Kept(before, own, s)
    ensures Kept(before, own, Account(s, usage)) && Moved(s, Account(s, usage), 0)
    ensures Account(s, usage).inbox == s.inbox
  {
    hide StoryOf;
    Law();
  }

  // ------------------------------------------------------------- arms

  /** Every way round again uses up something that cannot be used twice. */
  predicate Paid(cfg: Config, s: State, s1: State, why: Why, verdict: Verdict) {
    && |s1.inbox.consumed| >= |s.inbox.consumed|
    && match why
       case ForReset => !s.b.resetTried && s1.b == s.b.(resetTried := true) && s1.c.iteration == s.c.iteration
       case ForLeak => s.b.leaks < 2 && s1.b == s.b.(leaks := s.b.leaks + 1) && s1.c.iteration == s.c.iteration
       case ForHook => s.b.hooks < 3 && s1.b == s.b.(hooks := s.b.hooks + 1) && s1.c.iteration == s.c.iteration
       case ForGoal => verdict.NotYet? && s1.b == s.b.(goals := s.b.goals + 1) && s1.c.iteration == s.c.iteration
       case ForInput => s1.b == s.b && s1.c.iteration == s.c.iteration && |s1.inbox.consumed| > |s.inbox.consumed|
       case ForTools =>
         s1.b == s.b && s1.c.iteration == s.c.iteration + 1
         && (cfg.maxToolIterations.Some? ==> s.c.iteration < cfg.maxToolIterations.value)
  }

  /** What every arm achieves, having taken in at most `n` inputs; a successful end leaves only `late` behind. */
  predicate Yields(before: seq<Said>, own: bool, cfg: Config, w: World, s: State, r: Trip, n: nat) {
    && |r.s.inbox.arrived| <= |s.inbox.arrived| + n
    && match r
       case Again(s1, why) => Kept(before, own, s1) && s1.inbox.accepting && Paid(cfg, s, s1, why, w.verdict)
       case Leave(s1, outcome) =>
         && Ended(before, own, s1, outcome)
         && (outcome.Success? ==> !s1.inbox.accepting && s1.inbox.pending == w.late)
       case Drop(_) => false
  }

  lemma OnErrorKeeps(before: seq<Said>, own: bool, cfg: Config, s: State, w: World, e: ClientError)
    requires Kept(before, own, s) && s.inbox.accepting
    ensures Yields(before, own, cfg, w, s, OnError(cfg, s, e), 0)
  {
    hide StoryOf, Install, EmergencyReset;
    Law();
    var s1 := s.(b := s.b.(resetTried := true));
    InstallKeeps(before, own, s1, EmergencyReset(s.entries, cfg.keepRecentTurns));
  }

  lemma RecoverKeeps(before: seq<Said>, own: bool, cfg: Config, s: State, w: World, text: string, cleaned: string)
    requires Kept(before, own, s) && s.inbox.accepting && s.b.leaks < MAX_TOOL_XML_LEAK_RECOVERIES
    ensures Yields(before, own, cfg, w, s, Recover(s, w.streaming, text, cleaned), 0)
  {
    hide StoryOf, Chars, Push;
    Law();
  }

  lemma CloseTurnKeeps(before: seq<Said>, own: bool, s: State, w: World, text: string, cleaned: string)
    requires Kept(before, own, s)
    ensures var s1 := CloseTurn(s, w, text, cleaned);
            Kept(before, own, s1) && Moved(s, s1, |w.typedWhileClosing|) && !s1.inbox.accepting
  {
    hide StoryOf, Flush, Push, Arrive;
    Law();
    var s1 := Do(Do(s.(seg := s.seg.(final := text)), TextDone(text)), TurnFinished(EndTurn));
    assert Kept(before, own, s1);
    FlushKeeps(before, own, s1);
    ArriveKeeps(before, own, FlushIfPending(s1), w.typedWhileClosing);
    var s2 := Arrive(FlushIfPending(s1), w.typedWhileClosing);
    var s3 := SetAccepting(s2.(entries := Push(s.entries, Assistant(cleaned, []))), false);
    ArriveKeeps(before, own, s3, w.typedWhileClosed);
  }

  lemma PersistKeeps(before: seq<Said>, own: bool, s: State, condition: string, reason: string)
    requires Kept(before, own, s)
    ensures var s1 := Persist(s, condition, reason);
            && Kept(before, own, s1) && s1.inbox == s.inbox.(accepting := true)
            && s1.b == s.b.(goals := s.b.goals + 1) && s1.c == s.c
  {
    hide StoryOf, Push;
    Law();
  }

  lemma ConcludeKeeps(before: seq<Said>, own: bool, s: State, kind: MarkKind, a: Act, text: string)
    requires Kept(before, own, s)
    requires (kind == Achieved && a == GoalAchieved) || (kind == Impossible && a == GoalImpossible)
    ensures Ended(before, own, Conclude(s, kind, a), Success(text)) && Conclude(s, kind, a).inbox == s.inbox
  {
    hide StoryOf;
    Law();
  }

  lemma JudgeKeeps(before: seq<Said>, own: bool, cfg: Config, s: State, w: World, text: string)
    requires Kept(before, own, s) && !s.inbox.accepting && s.inbox.pending == w.late
    ensures Yields(before, own, cfg, w, s, Judge(cfg, s, w, text), 0)
  {
    hide StoryOf, Flush, Conclude, Persist;
    FlushKeeps(before, own, s);
    if s.goal.Some? && cfg.hasJudge {
      var s1 := Flush(s).(cancelled := s.cancelled || w.cancelJudge);
      match w.verdict {
        case IsAchieved => ConcludeKeeps(before, own, s1, Achieved, GoalAchieved, text);
        case IsImpossible => ConcludeKeeps(before, own, s1, Impossible, GoalImpossible, text);
        case NotYet(reason) => PersistKeeps(before, own, s1, s.goal.value.condition, reason);
      }
    }
  }

  lemma StopHookKeeps(before: seq<Said>, own: bool, cfg: Config, s: State, w: World, text: string)
    requires Kept(before, own, s) && !s.inbox.accepting && s.inbox.pending == w.late
    ensures Yields(before, own, cfg, w, s, StopHook(cfg, s, w, text), 0)
  {
    hide StoryOf, Flush, Judge, Push;
    Law();
    FlushKeeps(before, own, s);
    if cfg.hasHooks && s.b.hooks < MAX_STOP_INJECTIONS {
      var s1 := Do(Flush(s), Wrote(HookMark));
      assert Kept(before, own, s1);
      JudgeKeeps(before, own, cfg, s1, w, text);
    } else {
      JudgeKeeps(before, own, cfg, s, w, text);
    }
  }

  lemma OnDoneKeeps(
    before: seq<Said>, own: bool, cfg: Config, s: State, w: World, text: string, leaked: bool, cleaned: string)
    requires Kept(before, own, s) && s.inbox.accepting
    ensures Yields(before, own, cfg, w, s, OnDone(cfg, s, w, text, leaked, cleaned), |w.typedWhileClosing| + |w.late|)
  {
    hide StoryOf, Kept, Ended, Drain, StopHook, CloseTurn, Recover, PushLate;
    if leaked && s.b.leaks < MAX_TOOL_XML_LEAK_RECOVERIES {
      RecoverKeeps(before, own, cfg, s, w, text, cleaned);
    } else {
      var kept := if leaked then cleaned else text;
      CloseTurnKeeps(before, own, s, w, text, kept);
      var s1 := CloseTurn(s, w, text, kept);
      DrainKeeps(before, own, s1);
      DrainFrame(s1);
      PushLateKeeps(before, own, Drain(s1), w.late);
      LateAfterDrain(Drain(s1), w.late);
      var s2 := PushLate(Drain(s1), w.late);
      ReopenKeeps(before, own, s2);
      StopHookKeeps(before, own, cfg, s2, w, kept);
    }
  }

  lemma LateAfterDrain(s: State, late: seq<Said>)
    requires s.inbox.pending == []
    ensures PushLate(s, late).inbox.pending == late && PushLate(s, late).inbox.accepting == s.inbox.accepting
    ensures PushLate(s, late).inbox.consumed == s.inbox.consumed
  {
    assert [] + late == late;
  }

  lemma ReopenKeeps(before: seq<Said>, own: bool, s: State)
    requires Kept(before, own, s)
    ensures Kept(before, own, Reopen(s)) && Reopen(s) == s.(inbox := s.inbox.(accepting := true))
  {
  }

  lemma DispatchKeeps(before: seq<Said>, own: bool, s: State, w: World, calls: seq<CallId>)
    requires Kept(before, own, s)
    ensures var s1 := Dispatch(s, w, calls);
            && Kept(before, own, s1) && s1.inbox.accepting == s.inbox.accepting
            && s1.b == s.b && s1.c.iteration == s.c.iteration + 1 && |s1.inbox.consumed| >= |s.inbox.consumed|
            && |s1.inbox.arrived| <= |s.inbox.arrived| + |w.typedDuringTools|
  {
    hide StoryOf, Tools, Reached, Arrive;
    Law();
    var i := s.c.toolStep + 1;
    var s1 := Do(Do(s.(c := s.c.(iteration := s.c.iteration + 1, toolStep := i)), ToolStarted(i)),
                 Dispatched(s.c.offset, |calls|));
    assert Kept(before, own, s1);
    ArriveKeeps(before, own, s1, w.typedDuringTools);
  }

  lemma CollectKeeps(before: seq<Said>, own: bool, s: State, w: World, calls: seq<CallId>)
    requires Kept(before, own, s)
    ensures var s1 := Collect(s, w, calls);
            Kept(before, own, s1) && Moved(s, s1, |w.typedBeforeDrain|) && s1.inbox.accepting == s.inbox.accepting
  {
    hide StoryOf, Flush, Drain, Push, Reached, Arrive;
    Law();
    var results := ToolResults(calls[..Reached(w, calls, s.cancelled)]);
    var s1 := s.(entries := Push(s.entries, results), c := s.c.(offset := s.c.offset + |calls|));
    var s2 := Do(s1, ToolFinished(s.c.toolStep));
    assert Kept(before, own, s2);
    FlushKeeps(before, own, s2);
    ArriveKeeps(before, own, FlushIfPending(s2), w.typedBeforeDrain);
    DrainKeeps(before, own, Arrive(FlushIfPending(s2), w.typedBeforeDrain));
    DrainFrame(Arrive(FlushIfPending(s2), w.typedBeforeDrain));
  }

  /** What a batch leaves: still kept, one more iteration, and no fewer inputs drained. */
  predicate Dispatching(before: seq<Said>, own: bool, s: State, s1: State, n: nat) {
    && Kept(before, own, s1) && s1.inbox.accepting
    && s1.b == s.b && s1.c.iteration == s.c.iteration + 1 && |s1.inbox.consumed| >= |s.inbox.consumed|
    && |s1.inbox.arrived| <= |s.inbox.arrived| + n
  }

  lemma AfterCallsKeeps(
    before: seq<Said>, own: bool, cfg: Config, s: State, s1: State, w: World, calls: seq<CallId>)
    requires Dispatching(before, own, s, s1, |w.typedDuringTools|)
    requires cfg.maxToolIterations.Some? ==> s.c.iteration < cfg.maxToolIterations.value
    ensures Yields(before, own, cfg, w, s, AfterCalls(s1, w, calls), |w.typedDuringTools| + |w.typedBeforeDrain|)
  {
    hide StoryOf, Collect;
    Law();
    CollectKeeps(before, own, s1, w, calls);
  }

  lemma OnCallsKeeps(before: seq<Said>, own: bool, cfg: Config, s: State, w: World, text: string, calls: seq<CallId>)
    requires Kept(before, own, s) && s.inbox.accepting
    ensures Yields(before, own, cfg, w, s, OnCalls(cfg, s, w, text, calls),
                  |w.typedDuringTools| + |w.typedBeforeDrain|)
  {
    hide StoryOf, AfterCalls, Dispatch, Chars, Push;
    Law();
    var s1 := if w.streaming then s else Show(s, Chars(text));
    var s2 := s1.(entries := Push(s.entries, Assistant(text, calls)));
    assert Kept(before, own, s2);
    DispatchKeeps(before, own, s2, w, calls);
    if cfg.maxToolIterations.Some? && s.c.iteration >= cfg.maxToolIterations.value {
    } else {
      AfterCallsKeeps(before, own, cfg, s, Dispatch(s2, w, calls), w, calls);
    }
  }

  /** Inputs offered in one trip round the loop. */
  function TypedOnce(w: World): nat {
    |w.typedBefore| + |w.typedDuringModel| + |w.typedDuringTools| + |w.typedBeforeDrain|
    + |w.typedWhileClosing| + |w.late|
  }

  lemma PassKeeps(before: seq<Said>, own: bool, cfg: Config, s: State, w: World)
    requires Kept(before, own, s) && s.inbox.accepting && (own ==> w.goalEdit.KeepGoal?)
    ensures var r := Pass(cfg, s, w);
            if r.Drop? then Kept(before, own, r.s) && r.s.inbox.accepting
            else Yields(before, own, cfg, w, s, r, TypedOnce(w))
  {
    hide StoryOf, Boundary, ModelStep, OnDone, OnCalls, OnError, Account, Conserved, Pursuing, Settled;
    BoundaryKeeps(before, own, s, w);
    match Boundary(s, w) {
      case Halt(s1) => PursuingEnds(before, own, s1);
      case Abandon(_) =>
      case Go(s1) =>
        ModelStepKeeps(before, own, s1, w);
        var (s2, reply) := ModelStep(s1, w);
        match reply {
          case Done(text, leaked, cleaned, usage, finish) =>
            var s3 := s2.(finish := finish);
            FinishKeeps(before, own, s2, finish);
            AccountKeeps(before, own, s3, usage);
            OnDoneKeeps(before, own, cfg, Account(s3, usage), w, text, leaked, cleaned);
          case Calls(text, calls, usage) =>
            AccountKeeps(before, own, s2, usage);
            OnCallsKeeps(before, own, cfg, Account(s2, usage), w, text, calls);
          case Failed(e) =>
            OnErrorKeeps(before, own, cfg, s2, w, e);
        }
    }
  }

  lemma PursuingEnds(before: seq<Said>, own: bool, s: State)
    requires Kept(before, own, s)
    ensures Ended(before, own, s, Failure(Cancelled))
  {
  }

  lemma FinishKeeps(before: seq<Said>, own: bool, s: State, finish: Finish)
    requires Kept(before, own, s)
    ensures Kept(before, own, s.(finish := finish)) && Moved(s, s.(finish := finish), 0)
  {
  }
}
