/** Termination, delivery of user input, and the goal protocol, over whole runs. */
module RunPromises {
  import opened Transcript
  import opened Options
  import opened Retry
  import opened AgentLoop
  import opened Journal
  import Ledgers
  import RunEvents
  import Resume

  /** How many trips of the script a run makes. */
  function Trips(cfg: Config, s: State, script: seq<World>): (n: nat)
    ensures n <= |script|
    ensures script != [] ==> n > 0
    decreases |script|
  {
    if script == [] then 0
    else
      match Pass(cfg, s, script[0])
      case Again(s1, _) => 1 + Trips(cfg, s1, script[1..])
      case _ => 1
  }

  function TypedIn(script: seq<World>): nat {
    if script == [] then 0 else TypedOnce(script[0]) + TypedIn(script[1..])
  }

  function NotYets(script: seq<World>): nat {
    if script == [] then 0 else (if script[0].verdict.NotYet? then 1 else 0) + NotYets(script[1..])
  }

  predicate OwnGoals(script: seq<World>) {
    forall i :: 0 <= i < |script| ==> script[i].goalEdit.KeepGoal?
  }

  predicate Within(b: Budgets) {
    b.leaks <= 2 && b.hooks <= 3
  }

  /** How often the budgets and the inbox still let a run go round. */
  function Room(s: State): int {
    (if s.b.resetTried then 0 else 1) + (2 - s.b.leaks) + (3 - s.b.hooks)
    + (|s.inbox.arrived| - |s.inbox.consumed|)
  }

  // ------------------------------------------------------------- termination

  /** Every trip but the last is paid for, and so is the last when the run falls asleep: by its tool iteration. */
  lemma {:induction false} Bounded(before: seq<Said>, cfg: Config, s: State, script: seq<World>, max: nat)
    requires cfg.maxToolIterations == Some(max) && s.c.iteration <= max && Within(s.b)
    requires Kept(before, false, s) && s.inbox.accepting
    ensures var r, n := RunOver(cfg, s, script), Trips(cfg, s, script);
            var paid := Room(s) + TypedIn(script) + NotYets(script) + (r.s.c.iteration - s.c.iteration);
            && s.c.iteration <= r.s.c.iteration <= max
            && n <= paid + 1
            && (r.Going? ==> n == |script| <= paid)
            && (r.Ended? && r.outcome == Failure(Suspended) ==> n <= paid)
    decreases |script|
  {
    hide Pass, Kept, Epilogue;
    AcceptedSoFar(before, s);
    if script != [] {
      PassKeeps(before, false, cfg, s, script[0]);
      Resume.PassIterates(cfg, s, script[0]);
      match Pass(cfg, s, script[0]) {
        case Again(s1, why) => Bounded(before, cfg, s1, script[1..], max);
        case Leave(s1, outcome) => EpilogueCounters(s1, outcome, script[0]);
        case Drop(_) =>
      }
    }
  }

  lemma AcceptedSoFar(before: seq<Said>, s: State)
    requires Kept(before, false, s)
    ensures |s.inbox.arrived| >= |s.inbox.consumed|
  {
  }

  lemma {:induction false} TurnsPerTrip(cfg: Config, s: State, script: seq<World>)
    requires Ledgers.AtTop(s)
    ensures RunOver(cfg, s, script).s.c.modelStep <= s.c.modelStep + Trips(cfg, s, script)
    decreases |script|
  {
    hide Pass, Epilogue, Ledgers.AtTop, Ledgers.AtExit;
    if script != [] {
      Ledgers.PassBooks(cfg, s, script[0]);
      match Pass(cfg, s, script[0]) {
        case Again(s1, _) => TurnsPerTrip(cfg, s1, script[1..]);
        case Leave(s1, outcome) => EpilogueCounters(s1, outcome, script[0]);
        case Drop(_) =>
      }
    }
  }

  lemma EpilogueCounters(s: State, outcome: Outcome, w: World)
    ensures Epilogue(s, outcome, w).c == s.c
  {
    hide Flush, ContinueFor;
    FlushCounters(SetAccepting(Arrive(s, w.typedLeaving), false));
  }

  lemma FlushCounters(s: State)
    ensures Flush(s).c == s.c && Flush(s).inbox == s.inbox && Flush(s).goal == s.goal
  {
    hide Card;
  }

  /**
   A capped run that starts with unspent budgets makes at most 7 + K + G + (max - i0) turns, where K inputs are
   waiting or typed and G verdicts say "not yet"; once it has been round that often it is over.
   */
  lemma Terminates(before: seq<Said>, cfg: Config, s: State, script: seq<World>, max: nat)
    requires cfg.maxToolIterations == Some(max) && s.c.iteration <= max && s.b == UNSPENT
    requires Ledgers.AtTop(s) && Kept(before, false, s) && s.inbox.accepting
    ensures var k := |s.inbox.pending| + TypedIn(script);
            var bound := 7 + k + NotYets(script) + (max - s.c.iteration);
            var r := RunOver(cfg, s, script);
            && RunEvents.Count(r.s.trace, RunEvents.IsTurnStart)
               <= RunEvents.Count(s.trace, RunEvents.IsTurnStart) + bound
            && (|script| >= bound ==> !r.Going?)
  {
    Bounded(before, cfg, s, script, max);
    TurnsPerTrip(cfg, s, script);
    Ledgers.RunBooks(cfg, s, script);
    RunEvents.TurnsRead(s.trace);
    RunEvents.TurnsRead(RunOver(cfg, s, script).s.trace);
    assert |s.inbox.arrived| == |s.inbox.consumed| + |s.inbox.pending|;
    hide RunOver, Trips, RunEvents.Count, TypedIn, NotYets, Ledgers.LedgerOf, StoryOf;
  }

  // ------------------------------------------------------------- delivery

  /** Where a run's inbox and goal stand; `n` trips were made. */
  predicate Delivered(before: seq<Said>, own: bool, r: Run, script: seq<World>, n: nat) {
    match r
    case Going(s) => Kept(before, own, s) && s.inbox.accepting
    case Abandoned(s) => Kept(before, own, s) && s.inbox.accepting
    case Ended(s, outcome) =>
      && Journal.Ended(before, own, s, outcome) && !s.inbox.accepting
      && 0 < n <= |script| && (outcome.Success? ==> s.inbox.pending == script[n - 1].late)
  }

  lemma EpilogueKeeps(before: seq<Said>, own: bool, s: State, outcome: Outcome, w: World)
    requires Journal.Ended(before, own, s, outcome)
    ensures var s1 := Epilogue(s, outcome, w);
            && Journal.Ended(before, own, s1, outcome) && !s1.inbox.accepting
            && (!s.inbox.accepting ==> s1.inbox == s.inbox)
  {
    hide StoryOf, Flush, ContinueFor, Then;
    assert s.inbox.arrived + w.typedLeaving == s.inbox.consumed + (s.inbox.pending + w.typedLeaving);
    var s1 := SetAccepting(Arrive(s, w.typedLeaving), false);
    FlushTold(s1);
    var t := Flush(s1).trace;
    match outcome {
      case Success(_) =>
        EndingTold(t, RunFinished(s.c.total));
      case Failure(e) =>
        EndingTold(t, Wrote(InterruptedMark));
        EndingTold(Then(t, Wrote(InterruptedMark)), if e.Cancelled? then RunCancelled else RunFailed(e));
    }
  }

  /** The acts that end a run tell nothing new. */
  lemma EndingTold(t: Trace, a: Act)
    requires a.RunFinished? || a.RunCancelled? || a.RunFailed? || a == Wrote(InterruptedMark)
    ensures var j, k := StoryOf(t), StoryOf(Then(t, a));
            k == j.(ok := k.ok) && (j.due.Idle? ==> k.ok == j.ok)
  {
    hide StoryOf;
    Law();
  }

  lemma FlushTold(s: State)
    ensures var j, k := StoryOf(s.trace), StoryOf(Flush(s).trace);
            k == j.(ok := k.ok) && (j.due.Idle? ==> k.ok == j.ok)
    ensures Flush(s).inbox == s.inbox && Flush(s).goal == s.goal && Flush(s).c == s.c
  {
    hide StoryOf, Card;
    Law();
  }

  lemma {:induction false} RunDelivers(before: seq<Said>, own: bool, cfg: Config, s: State, script: seq<World>)
    requires Kept(before, own, s) && s.inbox.accepting && (own ==> OwnGoals(script))
    ensures Delivered(before, own, RunOver(cfg, s, script), script, Trips(cfg, s, script))
    decreases |script|
  {
    hide Pass, Kept, Journal.Ended, Epilogue;
    if script != [] {
      PassKeeps(before, own, cfg, s, script[0]);
      match Pass(cfg, s, script[0]) {
        case Again(s1, _) => RunDelivers(before, own, cfg, s1, script[1..]);
        case Leave(s1, outcome) => EpilogueKeeps(before, own, s1, outcome, script[0]);
        case Drop(_) =>
      }
    }
  }

  lemma FreshKeeps(entries: seq<Entry>, waiting: seq<Said>, goal: Option<Goal>, left: Option<ContinueKind>)
    ensures var s := Fresh(entries, waiting, goal, left);
            Kept([], true, s) && s.inbox.accepting && s.inbox.arrived == waiting
  {
    hide StoryOf, MaybeSetMarker;
    StartKeeps(entries, waiting, goal, left);
    MarkerKeeps([], true, Starting(entries, waiting, goal, left));
    MarkerOpen(Starting(entries, waiting, goal, left));
  }

  /** A new run before its set marker. */
  function Starting(
    entries: seq<Entry>, waiting: seq<Said>, goal: Option<Goal>, left: Option<ContinueKind>): State {
    State(entries, Inbox(true, waiting, [], waiting), false, ZERO, UNSPENT, goal, NOTHING, Stop, left, None,
          [RunStarted])
  }

  lemma StartKeeps(entries: seq<Entry>, waiting: seq<Said>, goal: Option<Goal>, left: Option<ContinueKind>)
    ensures Kept([], true, Starting(entries, waiting, goal, left))
  {
    hide StoryOf;
    Law();
    assert [RunStarted] == Then([], RunStarted);
    StoryOfNothing();
    assert waiting == [] + waiting;
  }

  lemma MarkerOpen(s: State)
    ensures MaybeSetMarker(s).inbox == s.inbox
  {
  }

  lemma StoryOfNothing()
    ensures StoryOf([]) == Story([], 0, 0, false, Idle, true)
  {
  }

  /**
   Every input the run accepted is logged and put to the model, once and in order. When a run succeeds the inbox
   is closed and nothing is left in it, if and only if no sender was still between its look at the flag and its
   push when the final drain ran.
   */
  lemma NoInputLost(
    cfg: Config, entries: seq<Entry>, waiting: seq<Said>, goal: Option<Goal>, left: Option<ContinueKind>,
    script: seq<World>)
    ensures var s := Fresh(entries, waiting, goal, left);
            var r := RunOver(cfg, s, script);
            var n := Trips(cfg, s, script);
            && StoryOf(r.s.trace).drained == r.s.inbox.consumed
            && r.s.inbox.consumed + r.s.inbox.pending == r.s.inbox.arrived
            && (r.Ended? ==> !r.s.inbox.accepting)
            && (!r.Ended? ==> r.s.inbox.accepting)
            && (r.Ended? && r.outcome.Success? ==>
                  && 0 < n <= |script| && r.s.inbox.pending == script[n - 1].late
                  && (StoryOf(r.s.trace).drained == r.s.inbox.arrived <==> script[n - 1].late == []))
  {
    var s := Fresh(entries, waiting, goal, left);
    FreshKeeps(entries, waiting, goal, left);
    RunDelivers([], false, cfg, s, script);
    var inbox := RunOver(cfg, s, script).s.inbox;
    assert [] + inbox.consumed == inbox.consumed;
    assert inbox.pending == [] ==> inbox.consumed + inbox.pending == inbox.consumed;
    hide RunOver, Fresh, StoryOf, Trips;
  }

  // ------------------------------------------------------------- abandoned runs

  /** A trip of the run that is not cancelled at its top has its compaction cancelled. */
  predicate CompactionCutShort(cfg: Config, s: State, script: seq<World>)
    decreases |script|
  {
    script != [] &&
    var w := script[0];
    ((!s.cancelled && !w.cancelBefore && w.compaction.CompactionCancelled?) ||
     (var r := Pass(cfg, s, w);
      r.Again? && CompactionCutShort(cfg, r.s, script[1..])))
  }

  lemma PassDrops(cfg: Config, s: State, w: World)
    ensures Pass(cfg, s, w).Drop? <==> !s.cancelled && !w.cancelBefore && w.compaction.CompactionCancelled?
  {
    hide ModelStep, Answer, Drain, Install, MaybeSetMarker;
    var s1 := Arrive(s, w.typedBefore).(cancelled := s.cancelled || w.cancelBefore);
    DrainFrame(s1);
    if Boundary(s, w).Go? {
      var (s2, reply) := ModelStep(Boundary(s, w).s, w);
      AnswerStays(cfg, s2, w, reply);
    }
  }

  lemma AnswerStays(cfg: Config, s: State, w: World, reply: Reply)
    ensures !Answer(cfg, s, w, reply).Drop?
  {
    hide CloseTurn, Drain, StopHook, Dispatch, Collect, Install, EmergencyReset;
    forall s1: State, text: string ensures !StopHook(cfg, s1, w, text).Drop? {
      StopHookStays(cfg, s1, w, text);
    }
  }

  lemma StopHookStays(cfg: Config, s: State, w: World, text: string)
    ensures !StopHook(cfg, s, w, text).Drop?
  {
    hide Flush, Persist, Conclude, Feedback;
  }

  /** A run is abandoned, without an end and with its inbox open, exactly when that happens. */
  lemma {:induction false} AbandonedWhen(cfg: Config, s: State, script: seq<World>)
    ensures RunOver(cfg, s, script).Abandoned? <==> CompactionCutShort(cfg, s, script)
    decreases |script|
  {
    hide Pass, Epilogue;
    if script != [] {
      PassDrops(cfg, s, script[0]);
      match Pass(cfg, s, script[0]) {
        case Again(s1, _) => AbandonedWhen(cfg, s1, script[1..]);
        case Leave(_, _) =>
        case Drop(_) =>
      }
    }
  }

  // ------------------------------------------------------------- goals

  /** Goal markers of the current segment. */
  function MarksOf(t: Trace): seq<(MarkKind, nat)> {
    if t == [] then [] else AddMark(MarksOf(t[..|t| - 1]), t[|t| - 1])
  }

  function ProgressUpTo(n: nat): seq<(MarkKind, nat)> {
    if n == 0 then [] else ProgressUpTo(n - 1) + [(Progress, n)]
  }

  function Body(isSet: bool, n: nat): seq<(MarkKind, nat)> {
    (if isSet then [(GoalSet, 0)] else []) + ProgressUpTo(n)
  }

  /** An optional `set`, then progress 1 to `n`, then, when the goal is settled, one verdict carrying `n`. */
  predicate Sentence(marks: seq<(MarkKind, nat)>, isSet: bool, n: nat, over: bool) {
    if over then marks == Body(isSet, n) + [(Achieved, n)] || marks == Body(isSet, n) + [(Impossible, n)]
    else marks == Body(isSet, n)
  }

  function AddMark(marks: seq<(MarkKind, nat)>, a: Act): seq<(MarkKind, nat)> {
    match a
    case RunStarted => []
    case RunResumed => []
    case Wrote(GoalMark(kind, n)) => marks + [(kind, n)]
    case _ => marks
  }

  lemma AddMarkSpoken(j: Story, marks: seq<(MarkKind, nat)>, a: Act)
    requires j.sets <= 1 && Sentence(marks, j.sets == 1, j.progress, j.over) && Read(j, a).ok
    ensures var k := Read(j, a);
            k.sets <= 1 && Sentence(AddMark(marks, a), k.sets == 1, k.progress, k.over)
  {
    hide Body;
    BodyGrows(j.sets == 1, j.progress);
    match a {
      case RunStarted =>
      case RunResumed =>
      case Wrote(GoalMark(kind, n)) =>
      case Wrote(_) =>
      case _ =>
    }
  }

  lemma {:induction false} MarksRead(t: Trace)
    requires StoryOf(t).ok
    ensures var j := StoryOf(t);
            j.sets <= 1 && Sentence(MarksOf(t), j.sets == 1, j.progress, j.over)
  {
    hide Sentence;
    if t == [] {
      SilentSentence();
    } else {
      var front, a := t[..|t| - 1], t[|t| - 1];
      ReadOk(StoryOf(front), a);
      MarksRead(front);
      AddMarkSpoken(StoryOf(front), MarksOf(front), a);
    }
  }

  lemma SilentSentence()
    ensures Sentence([], false, 0, false)
  {
  }

  lemma ReadOk(j: Story, a: Act)
    ensures Read(j, a).ok ==> j.ok
  {
  }

  lemma BodyGrows(isSet: bool, n: nat)
    ensures Body(isSet, n + 1) == Body(isSet, n) + [(Progress, n + 1)]
    ensures Body(false, 0) == [] && Body(true, 0) == [(GoalSet, 0)]
  {
  }

  lemma {:induction false} StoryBefore(t: Trace, n: nat)
    requires n <= |t| && StoryOf(t).ok
    ensures StoryOf(t[..n]).ok
    decreases |t|
  {
    if n == |t| {
      assert t[..n] == t;
    } else {
      ReadOk(StoryOf(t[..|t| - 1]), t[|t| - 1]);
      assert t[..|t| - 1][..n] == t[..n];
      StoryBefore(t[..|t| - 1], n);
    }
  }

  lemma StoryAt(t: Trace, i: nat)
    requires i < |t|
    ensures StoryOf(t[..i + 1]) == Read(StoryOf(t[..i]), t[i])
  {
    assert t[..i + 1][..i] == t[..i];
  }

  predicate IsProgressMark(a: Act) {
    a.Wrote? && a.line.GoalMark? && a.line.kind == Progress
  }

  predicate IsGoalFeedback(a: Act) {
    a.Wrote? && a.line.FeedbackUser? && a.line.said.GoalFeedback?
  }

  /** What was due before a prefix's last act is what that act was. */
  lemma DueRead(t: Trace, i: nat)
    requires i < |t| && StoryOf(t).ok
    ensures StoryOf(t[..i + 1]).due == Announce <==> IsProgressMark(t[i])
    ensures StoryOf(t[..i + 1]).due == Tell <==> t[i].GoalProgressed?
    ensures IsProgressMark(t[i]) ==> StoryOf(t[..i + 1]).progress == t[i].line.iteration
    ensures StoryOf(t[..i]).due == Announce ==> t[i] == GoalProgressed(StoryOf(t[..i]).progress)
    ensures StoryOf(t[..i]).due == Tell ==> IsGoalFeedback(t[i])
    ensures t[i].GoalProgressed? ==> StoryOf(t[..i]).due == Announce
    ensures IsGoalFeedback(t[i]) ==> StoryOf(t[..i]).due == Tell
  {
    hide StoryOf;
    StoryBefore(t, i + 1);
    StoryAt(t, i);
  }

  lemma NothingDueAtStart(t: Trace)
    ensures StoryOf(t[..0]).due == Idle
  {
    assert t[..0] == [];
  }

  /** A progress marker is on disk just before its event, and right after it the model is told, once. */
  predicate Told(t: Trace, i: nat)
    requires i < |t|
  {
    && (IsProgressMark(t[i]) ==>
          i + 2 < |t| && t[i + 1] == GoalProgressed(t[i].line.iteration) && IsGoalFeedback(t[i + 2]))
    && (IsGoalFeedback(t[i]) ==> i >= 2 && IsProgressMark(t[i - 2]) && t[i - 1].GoalProgressed?)
    && (t[i].GoalProgressed? ==> i >= 1 && t[i - 1] == Wrote(GoalMark(Progress, t[i].iteration)))
  }

  lemma ProgressIsTold(t: Trace, i: nat)
    requires i < |t| && StoryOf(t).ok && StoryOf(t).due == Idle
    ensures Told(t, i)
  {
    hide StoryOf;
    DueRead(t, i);
    NothingDueAtStart(t);
    assert t[..|t|] == t;
    if i + 1 < |t| {
      DueRead(t, i + 1);
    }
    if i + 2 < |t| {
      DueRead(t, i + 2);
    }
    if i >= 1 {
      DueRead(t, i - 1);
    }
    if i >= 2 {
      DueRead(t, i - 2);
    }
  }

  /**
   The goal protocol of a run nobody else interferes with: its markers form a sentence, no verdict is followed by
   more work, a verdict clears the goal, and progress is logged, announced and told in that order.
   */
  lemma GoalProtocol(
    cfg: Config, entries: seq<Entry>, waiting: seq<Said>, goal: Option<Goal>, left: Option<ContinueKind>,
    script: seq<World>)
    requires OwnGoals(script)
    ensures var r := RunOver(cfg, Fresh(entries, waiting, goal, left), script);
            var j := StoryOf(r.s.trace);
            && Sentence(MarksOf(r.s.trace), j.sets == 1, j.progress, j.over)
            && (j.over ==> r.Ended? && r.outcome.Success? && r.s.goal.None?)
            && (forall i :: 0 <= i < |r.s.trace| ==> Told(r.s.trace, i))
  {
    hide RunOver, Fresh, StoryOf, Trips, MarksOf, Sentence;
    var s := Fresh(entries, waiting, goal, left);
    FreshKeeps(entries, waiting, goal, left);
    RunDelivers([], true, cfg, s, script);
    var t := RunOver(cfg, s, script).s.trace;
    MarksRead(t);
    forall i | 0 <= i < |t| ensures Told(t, i) {
      ProgressIsTold(t, i);
    }
  }
}
