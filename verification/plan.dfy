/**
 The run without its machinery. A `Plan` has no inbox flag, no log, no accumulator and no step brackets; `Move` says
 on one page what a trip decides, what it adds to the conversation and what it reports. The loop refines it, trip by
 trip and over whole runs with any number of suspensions.
 */
module Plans {
  import opened Transcript
  import opened Options
  import opened Retry
  import opened AgentLoop
  import LogicalRuns
  import RunPromises

  datatype Plan = Plan(
    entries: seq<Entry>, waiting: seq<Said>, cancelled: bool, iteration: nat, offset: nat, b: Budgets,
    goal: Option<Goal>)

  /** How a trip ends. */
  datatype Way = Round(why: Why) | Out(outcome: Outcome) | Off

  datatype Move = Move(way: Way, to: Plan, says: seq<Act>) {
    function Saying(before: seq<Act>): Move {
      Move(way, to, before + says)
    }
  }

  function Voices(said: seq<Said>): seq<Entry> {
    seq(|said|, i requires 0 <= i < |said| => User(said[i]))
  }

  // ------------------------------------------------------------- the page

  function SetNotice(goal: Option<Goal>): seq<Act> {
    if goal.Some? && goal.value.pendingSet then [Wrote(GoalMark(GoalSet, 0))] else []
  }

  function Announced(goal: Option<Goal>): Option<Goal> {
    if goal.Some? then Some(Goal(goal.value.condition, goal.value.iterations, false)) else None
  }

  function Context(es: seq<Entry>, compaction: Compaction): seq<Entry> {
    match compaction
    case Summarised => SUMMARY
    case Replaced(other) => other
    case _ => es
  }

  function ContextNotice(compaction: Compaction): seq<Act> {
    if compaction.Summarised? || compaction.Replaced? then [Wrote(CompactMark), Compacted] else []
  }

  function Edited(goal: Option<Goal>, edit: GoalEdit): Option<Goal> {
    match edit
    case KeepGoal => goal
    case SetGoal(condition) => Some(Goal(condition, 0, true))
    case ClearGoal => None
  }

  /** Every call of a model step sends the same conversation. */
  function Requests(es: seq<Entry>, n: nat): seq<Act> {
    seq(n, _ => Asked(es))
  }

  /** Inputs first; then a cancel stops the run, or the goal and the context are seen to and the model is asked. */
  function MoveOf(cfg: Config, p: Plan, w: World): Move {
    var cancelled := p.cancelled || w.cancelBefore;
    var heard := p.(entries := p.entries + Voices(p.waiting + w.typedBefore), waiting := [], cancelled := cancelled);
    if cancelled then Move(Out(Failure(Cancelled)), heard, [])
    else
      var top := heard.(goal := Announced(p.goal));
      if w.compaction.CompactionCancelled? then Move(Off, top, SetNotice(p.goal))
      else
        var answer := Settle(w.attempts, 0);
        var asked := top.(entries := Context(top.entries, w.compaction), waiting := w.typedDuringModel,
                          cancelled := answer.cancelled, goal := Edited(top.goal, w.goalEdit));
        OnReply(cfg, asked, w, answer.reply).Saying(
          SetNotice(p.goal) + ContextNotice(w.compaction) + Requests(asked.entries, answer.calls))
  }

  function OnReply(cfg: Config, p: Plan, w: World, reply: Reply): Move {
    match reply
    case Failed(e) => OnFailure(cfg, p, e)
    case Done(text, leaked, cleaned, usage, _) => OnAnswer(cfg, p, w, text, leaked, cleaned).Saying([Used(usage)])
    case Calls(text, calls, usage) => OnBatch(cfg, p, w, text, calls).Saying([Used(usage)])
  }

  function OnFailure(cfg: Config, p: Plan, e: ModelError): Move {
    if e.ContextTooLong() && !p.b.resetTried then
      Move(Round(ForReset), p.(entries := EmergencyReset(p.entries, cfg.keepRecentTurns),
                               b := p.b.(resetTried := true)),
           [Wrote(CompactMark), Compacted, TurnFinished(TurnFailed)])
    else Move(Out(Failure(e)), p, [TurnFinished(TurnFailed)])
  }

  /** The user hears the text as it came; the conversation and the caller get it without leaked tool calls. */
  function OnAnswer(cfg: Config, p: Plan, w: World, text: string, leaked: bool, cleaned: string): Move {
    if leaked && p.b.leaks < 2 then
      Move(Round(ForLeak), p.(entries := p.entries + [Assistant(cleaned, []), User(FormatNotice)],
                              b := p.b.(leaks := p.b.leaks + 1)), [])
    else
      var kept, typed := (if leaked then cleaned else text), p.waiting + w.typedWhileClosing;
      var q := p.(entries := p.entries + [Assistant(kept, [])] + Voices(typed), waiting := w.late);
      (if typed != [] then Move(Round(ForInput), q, []) else OnStop(cfg, q, w, kept)).Saying(
        [TextDone(text), TurnFinished(EndTurn)])
  }

  function OnStop(cfg: Config, p: Plan, w: World, kept: string): Move {
    if !cfg.hasHooks || p.b.hooks >= 3 then OnVerdict(cfg, p, w, kept)
    else if w.hook.InjectFollowup? && w.hook.reminder != "" then
      Move(Round(ForHook), p.(entries := p.entries + [User(HookFeedback(w.hook.reminder))],
                              b := p.b.(hooks := p.b.hooks + 1)), [Wrote(HookMark)])
    else OnVerdict(cfg, p, w, kept).Saying([Wrote(HookMark)])
  }

  function OnVerdict(cfg: Config, p: Plan, w: World, kept: string): Move {
    if p.goal.None? || !cfg.hasJudge then Move(Out(Success(kept)), p, [])
    else
      var q, n := p.(cancelled := p.cancelled || w.cancelJudge), p.b.goals;
      match w.verdict
      case IsAchieved =>
        Move(Out(Success(kept)), q.(goal := None), [Wrote(GoalMark(Achieved, n)), GoalAchieved])
      case IsImpossible =>
        Move(Out(Success(kept)), q.(goal := None), [Wrote(GoalMark(Impossible, n)), GoalImpossible])
      case NotYet(reason) =>
        if q.cancelled then Move(Out(Failure(Cancelled)), q, [])
        else
          Move(Round(ForGoal), q.(entries := q.entries + [User(GoalFeedback(reason))], b := q.b.(goals := n + 1),
                                  goal := Some(Goal(p.goal.value.condition, n + 1, false))),
               [Wrote(GoalMark(Progress, n + 1)), GoalProgressed(n + 1)])
  }

  function OnBatch(cfg: Config, p: Plan, w: World, text: string, calls: seq<CallId>): Move {
    var q := p.(entries := p.entries + [Assistant(text, calls)]);
    if cfg.maxToolIterations.Some? && p.iteration >= cfg.maxToolIterations.value then
      Move(Out(Failure(Other(false))), q, [TurnFinished(MaxIterations)])
    else
      var cancelled, typed := p.cancelled || w.cancelTools, p.waiting + w.typedDuringTools;
      var called := q.(iteration := p.iteration + 1, cancelled := cancelled, waiting := typed);
      AfterBatch(called, w, calls).Saying([Dispatched(p.offset, |calls|)])
  }

  function AfterBatch(p: Plan, w: World, calls: seq<CallId>): Move {
    if w.toolError.Some? then Move(Out(Failure(w.toolError.value)), p, [TurnFinished(TurnCancelled)])
    else
      var n := if p.cancelled && w.started < |calls| then w.started else |calls|;
      var q := p.(entries := p.entries + [ToolResults(calls[..n])] + Voices(p.waiting + w.typedBeforeDrain),
                  waiting := [], offset := p.offset + |calls|);
      if w.suspend then Move(Out(Failure(Suspended)), q, [RunSuspended, TurnFinished(EndTurn)])
      else Move(Round(ForTools), q, [TurnFinished(EndTurn)])
  }

  // ------------------------------------------------------------- whole runs

  /** `end` is absent while the script has run out before the run has; `moves` counts the trips. */
  datatype Plot = Plot(end: Option<Way>, to: Plan, says: seq<Act>, moves: nat)

  /** The report of a success carries the totals, which are not planned. */
  function Farewell(way: Way): seq<Act> {
    match way
    case Out(Failure(e)) =>
      if e.Suspended? then [] else [Wrote(InterruptedMark), if e.Cancelled? then RunCancelled else RunFailed(e)]
    case _ => []
  }

  function PlotOf(cfg: Config, p: Plan, script: seq<World>): (plot: Plot)
    ensures plot.moves <= |script|
    decreases |script|
  {
    if script == [] then Plot(None, p, [], 0)
    else
      var m := MoveOf(cfg, p, script[0]);
      if m.way.Round? then
        var rest := PlotOf(cfg, m.to, script[1..]);
        Plot(rest.end, rest.to, m.says + rest.says, rest.moves + 1)
      else Plot(Some(m.way), m.to, m.says + Farewell(m.way), 1)
  }

  /** Counters and the goal survive a sleep; budgets and a cancel do not. */
  function WokenUp(p: Plan, leg: Leg): Plan {
    p.(entries := leg.entries, waiting := leg.waiting, cancelled := false, b := UNSPENT)
  }

  function LifeOf(cfg: Config, p: Plan, script: seq<World>, legs: seq<Leg>): Plot
    decreases |legs|
  {
    var plot := PlotOf(cfg, p, script);
    if legs == [] || plot.end != Some(Out(Failure(Suspended))) then plot
    else
      var rest := LifeOf(cfg, WokenUp(plot.to, legs[0]), legs[0].script, legs[1..]);
      Plot(rest.end, rest.to, plot.says + [RunResumed] + rest.says, plot.moves + rest.moves)
  }

  // ------------------------------------------------------------- what of a run is planned

  /** Everything but brackets, retry notices, assistant cards and user lines, and the figures of a finished run. */
  predicate Noted(a: Act) {
    match a
    case TurnStarted => false
    case ModelStarted(_) => false
    case ModelFinished(_) => false
    case ToolStarted(_) => false
    case ToolFinished(_) => false
    case Retrying(_, _) => false
    case RunFinished(_) => false
    case Wrote(line) => line.GoalMark? || line.HookMark? || line.CompactMark? || line.InterruptedMark?
    case _ => true
  }

  function Digest(t: Trace): seq<Act> {
    if t == [] then [] else Digest(t[..|t| - 1]) + if Noted(t[|t| - 1]) then [t[|t| - 1]] else []
  }

  function PlanOf(s: State): Plan {
    Plan(s.entries, s.inbox.pending, s.cancelled, s.c.iteration, s.c.offset, s.b, s.goal)
  }

  function WayOf(r: Trip): Way {
    match r
    case Again(_, why) => Round(why)
    case Leave(_, outcome) => Out(outcome)
    case Drop(_) => Off
  }

  lemma Law()
    ensures forall t, a {:trigger Then(t, a)} :: Digest(Then(t, a)) == if Noted(a) then Digest(t) + [a] else Digest(t)
  {
    forall t: Trace, a: Act ensures Digest(Then(t, a)) == if Noted(a) then Digest(t) + [a] else Digest(t) {
      assert (t + [a])[..|t|] == t;
      assert Digest(t) + [] == Digest(t);
    }
  }

  /** The trip from a state with this digest goes as planned. */
  predicate Goes(told: seq<Act>, r: Trip, m: Move) {
    && WayOf(r) == m.way && PlanOf(r.s) == m.to && Digest(r.s.trace) == told + m.says
    && (r.Again? ==> r.s.inbox.accepting)
  }

  lemma GoesOn(told: seq<Act>, before: seq<Act>, r: Trip, m: Move)
    requires Goes(told + before, r, m)
    ensures Goes(told, r, m.Saying(before))
  {
    assert told + before + m.says == told + (before + m.says);
  }

  // ------------------------------------------------------------- small steps

  lemma {:induction false} DrainNotes(t: Trace, es: seq<Entry>, drained: seq<Said>)
    ensures Digest(WriteUsers(t, drained)) == Digest(t)
    ensures PushUsers(es, drained) == es + Voices(drained)
    decreases |drained|
  {
    hide Digest;
    Law();
    if drained != [] {
      DrainNotes(Then(t, Wrote(DrainedUser(drained[0]))), Push(es, User(drained[0])), drained[1..]);
      assert Voices(drained) == [User(drained[0])] + Voices(drained[1..]);
    }
  }

  lemma DrainPlanned(s: State)
    ensures PlanOf(Drain(s)) == PlanOf(s).(entries := s.entries + Voices(s.inbox.pending), waiting := [])
    ensures Digest(Drain(s).trace) == Digest(s.trace) && Drain(s).inbox.accepting == s.inbox.accepting
    ensures Drain(s).c == s.c
  {
    DrainNotes(s.trace, s.entries, s.inbox.pending);
  }

  lemma FlushPlanned(s: State)
    ensures PlanOf(Flush(s)) == PlanOf(s) && Digest(Flush(s).trace) == Digest(s.trace)
    ensures Flush(s).inbox == s.inbox && Flush(s).c == s.c && Flush(s).checkpoint == s.checkpoint
  {
    hide Digest, Card;
    Law();
  }

  lemma InstallPlanned(s: State, es: seq<Entry>)
    ensures PlanOf(Install(s, es)) == PlanOf(s).(entries := es)
    ensures Digest(Install(s, es).trace) == Digest(s.trace) + [Wrote(CompactMark), Compacted]
    ensures Install(s, es).inbox == s.inbox
  {
    hide Digest, Flush;
    Law();
    FlushPlanned(s.(entries := es));
  }

  lemma {:induction false} AskNotes(t: Trace, es: seq<Entry>, a: Attempts, k: nat)
    requires k <= MAX_MODEL_RETRIES
    ensures Digest(AskTrace(t, es, a, k)) == Digest(t) + Requests(es, Settle(a, k).calls - k)
    decreases MAX_MODEL_RETRIES - k
  {
    hide RetryDelay, Digest, Settle, Requests, IsRetryable;
    Law();
    CallsFrom(a, k);
    OneMoreRequest(Digest(t), es, 0);
    if Retries(a, k) && !a[k].cancelled {
      AskNotes(Then(Then(t, Asked(es)), Retrying(k + 1, RetryDelay(k + 1))), es, a, k + 1);
      OneMoreRequest(Digest(t), es, Settle(a, k).calls - k - 1);
    }
  }

  lemma CallsFrom(a: Attempts, k: nat)
    requires k <= MAX_MODEL_RETRIES
    ensures Settle(a, k).calls == if Retries(a, k) && !a[k].cancelled then Settle(a, k + 1).calls else k + 1
  {
  }

  lemma OneMoreRequest(told: seq<Act>, es: seq<Entry>, n: nat)
    ensures told + [Asked(es)] + Requests(es, n) == told + Requests(es, n + 1)
    ensures told + [Asked(es)] == told + Requests(es, 1)
  {
  }

  lemma DoPlanned(s: State, a: Act)
    ensures PlanOf(Do(s, a)) == PlanOf(s)
    ensures Digest(Do(s, a).trace) == if Noted(a) then Digest(s.trace) + [a] else Digest(s.trace)
    ensures Do(s, a).inbox == s.inbox && Do(s, a).b == s.b && Do(s, a).entries == s.entries
  {
    hide Digest;
    Law();
  }

  lemma FeedbackPlanned(s: State, said: Said)
    ensures PlanOf(Feedback(s, said)) == PlanOf(s).(entries := s.entries + [User(said)])
    ensures Digest(Feedback(s, said).trace) == Digest(s.trace) && Feedback(s, said).inbox == s.inbox
    ensures Feedback(s, said).b == s.b
  {
    hide Digest;
    Law();
  }

  // ------------------------------------------------------------- stages

  lemma BoundaryPlanned(s: State, w: World)
    requires s.inbox.accepting
    ensures var p := PlanOf(s);
            var cancelled := s.cancelled || w.cancelBefore;
            var heard := p.(entries := p.entries + Voices(p.waiting + w.typedBefore), waiting := [],
                            cancelled := cancelled);
            var top := heard.(goal := Announced(p.goal));
            var told, g := Digest(s.trace), Boundary(s, w);
            && g.s.inbox.accepting
            && (if cancelled then g.Halt? && PlanOf(g.s) == heard && Digest(g.s.trace) == told
                else if w.compaction.CompactionCancelled? then
                  g.Abandon? && PlanOf(g.s) == top && Digest(g.s.trace) == told + SetNotice(p.goal)
                else
                  && g.Go? && PlanOf(g.s) == top.(entries := Context(top.entries, w.compaction))
                  && Digest(g.s.trace) == told + (SetNotice(p.goal) + ContextNotice(w.compaction)))
  {
    hide Digest, Drain, Install, Voices, MaybeSetMarker;
    var s1 := Arrive(s, w.typedBefore).(cancelled := s.cancelled || w.cancelBefore);
    DrainPlanned(s1);
    MarkerPlanned(Drain(s1));
    var s2 := MaybeSetMarker(Drain(s1));
    InstallPlanned(s2, Context(s2.entries, w.compaction));
    var told, notice := Digest(s.trace), SetNotice(s.goal);
    assert told + notice + [] == told + notice == told + (notice + []);
    assert told + notice + [Wrote(CompactMark), Compacted] == told + (notice + [Wrote(CompactMark), Compacted]);
  }

  lemma MarkerPlanned(s: State)
    ensures PlanOf(MaybeSetMarker(s)) == PlanOf(s).(goal := Announced(s.goal))
    ensures Digest(MaybeSetMarker(s).trace) == Digest(s.trace) + SetNotice(s.goal)
    ensures MaybeSetMarker(s).inbox == s.inbox
  {
    hide Digest;
    Law();
    assert Digest(s.trace) + [] == Digest(s.trace);
  }

  lemma TryPlanned(s: State, streaming: bool, a: Attempts)
    ensures var (s1, reply) := TryModel(s, streaming, a);
            && PlanOf(s1) == PlanOf(s).(cancelled := s.cancelled || Settle(a, 0).cancelled)
            && Digest(s1.trace) == Digest(s.trace) + Requests(s.entries, Settle(a, 0).calls)
            && reply == Settle(a, 0).reply && s1.inbox == s.inbox
  {
    hide Digest, AskTrace, AskAtoms, Settle, Requests;
    AskNotes(s.trace, s.entries, a, 0);
  }

  lemma ModelStepPlanned(s: State, w: World)
    requires s.inbox.accepting && s.inbox.pending == [] && !s.cancelled
    ensures var (s1, reply) := ModelStep(s, w);
            var answer := Settle(w.attempts, 0);
            && reply == answer.reply && s1.inbox.accepting
            && Digest(s1.trace) == Digest(s.trace) + Requests(s.entries, answer.calls)
            && PlanOf(s1) == PlanOf(s).(waiting := w.typedDuringModel, cancelled := answer.cancelled,
                                        goal := Edited(s.goal, w.goalEdit))
  {
    hide Digest, TryModel, Settle, Requests, Then;
    var s0 := Do(s, TurnStarted).(c := s.c.(modelStep := s.c.modelStep + 1));
    DoPlanned(s, TurnStarted);
    DoPlanned(s0, ModelStarted(s0.c.modelStep));
    TryPlanned(StartTurn(s), w.streaming, w.attempts);
    var s1 := TryModel(StartTurn(s), w.streaming, w.attempts).0;
    DoPlanned(s1, ModelFinished(s1.c.modelStep));
    assert [] + w.typedDuringModel == w.typedDuringModel;
  }

  lemma AccountPlanned(s: State, usage: Usage)
    ensures PlanOf(Account(s, usage)) == PlanOf(s) && Digest(Account(s, usage).trace) == Digest(s.trace) + [Used(usage)]
    ensures Account(s, usage).inbox == s.inbox
  {
    hide Digest;
    Law();
  }

  lemma OnErrorPlanned(cfg: Config, s: State, e: ClientError)
    requires s.inbox.accepting
    ensures Goes(Digest(s.trace), OnError(cfg, s, e), OnFailure(cfg, PlanOf(s), e))
  {
    hide Digest, Install, EmergencyReset;
    Law();
    InstallPlanned(s.(b := s.b.(resetTried := true)), EmergencyReset(s.entries, cfg.keepRecentTurns));
  }

  lemma RecoverPlanned(s: State, streaming: bool, text: string, cleaned: string)
    requires s.inbox.accepting
    ensures Goes(Digest(s.trace), Recover(s, streaming, text, cleaned),
                 Move(Round(ForLeak), PlanOf(s).(entries := s.entries + [Assistant(cleaned, []), User(FormatNotice)],
                                                 b := s.b.(leaks := s.b.leaks + 1)), []))
  {
    hide Digest, Chars;
    Law();
    assert s.entries + [Assistant(cleaned, [])] + [User(FormatNotice)]
        == s.entries + [Assistant(cleaned, []), User(FormatNotice)];
  }

  lemma CloseTurnPlanned(s: State, w: World, text: string, kept: string)
    requires s.inbox.accepting
    ensures var s1, typed := CloseTurn(s, w, text, kept), s.inbox.pending + w.typedWhileClosing;
            && PlanOf(s1) == PlanOf(s).(entries := s.entries + [Assistant(kept, [])], waiting := typed)
            && Digest(s1.trace) == Digest(s.trace) + [TextDone(text), TurnFinished(EndTurn)]
            && !s1.inbox.accepting
  {
    hide Digest, Flush;
    Law();
    FlushPlanned(Do(Do(s.(seg := s.seg.(final := text)), TextDone(text)), TurnFinished(EndTurn)));
  }

  lemma ConcludePlanned(s: State, kind: MarkKind, a: Act, kept: string)
    requires a.GoalAchieved? || a.GoalImpossible?
    ensures Goes(Digest(s.trace), Leave(Conclude(s, kind, a), Success(kept)),
                 Move(Out(Success(kept)), PlanOf(s).(goal := None), [Wrote(GoalMark(kind, s.b.goals)), a]))
  {
    hide Digest;
    Law();
  }

  lemma PersistPlanned(s: State, condition: string, reason: string)
    ensures var n := s.b.goals + 1;
            Goes(Digest(s.trace), Again(Persist(s, condition, reason), ForGoal),
                 Move(Round(ForGoal),
                      PlanOf(s).(entries := s.entries + [User(GoalFeedback(reason))], b := s.b.(goals := n),
                                 goal := Some(Goal(condition, n, false))),
                      [Wrote(GoalMark(Progress, n)), GoalProgressed(n)]))
  {
    hide Digest, Feedback, Do;
    var n := s.b.goals + 1;
    var s1 := s.(b := s.b.(goals := n), goal := Some(Goal(condition, n, false)));
    var mark, event := Wrote(GoalMark(Progress, n)), GoalProgressed(n);
    DoPlanned(s1, mark);
    DoPlanned(Do(s1, mark), event);
    FeedbackPlanned(Do(Do(s1, mark), event), GoalFeedback(reason));
    assert Digest(s.trace) + [mark] + [event] == Digest(s.trace) + [mark, event];
  }

  lemma LeavesAs(told: seq<Act>, s: State, outcome: Outcome)
    requires told == Digest(s.trace)
    ensures Goes(told, Leave(s, outcome), Move(Out(outcome), PlanOf(s), []))
  {
    assert told + [] == told;
  }

  lemma JudgePlanned(cfg: Config, s: State, w: World, kept: string)
    ensures Goes(Digest(s.trace), Judge(cfg, s, w, kept), OnVerdict(cfg, PlanOf(s), w, kept))
  {
    hide Digest, Flush, Goes, Conclude, Persist;
    FlushPlanned(s);
    LeavesAs(Digest(s.trace), s, Success(kept));
    LeavesAs(Digest(s.trace), Flush(s), Success(kept));
    if s.goal.Some? && cfg.hasJudge {
      var s1 := Flush(s).(cancelled := s.cancelled || w.cancelJudge);
      match w.verdict {
        case IsAchieved => ConcludePlanned(s1, Achieved, GoalAchieved, kept);
        case IsImpossible => ConcludePlanned(s1, Impossible, GoalImpossible, kept);
        case NotYet(reason) =>
          PersistPlanned(s1, s.goal.value.condition, reason);
          LeavesAs(Digest(s.trace), s1, Failure(Cancelled));
      }
    }
  }

  lemma HookPlanned(s: State)
    ensures var s1 := Do(Flush(s), Wrote(HookMark));
            PlanOf(s1) == PlanOf(s) && Digest(s1.trace) == Digest(s.trace) + [Wrote(HookMark)]
  {
    hide Digest, Flush;
    Law();
    FlushPlanned(s);
  }

  lemma InjectPlanned(s: State, reminder: string)
    ensures Goes(Digest(s.trace), Again(Reopen(Feedback(s, HookFeedback(reminder))), ForHook),
                 Move(Round(ForHook), PlanOf(s).(entries := s.entries + [User(HookFeedback(reminder))]), []))
  {
    hide Digest, Feedback;
    FeedbackPlanned(s, HookFeedback(reminder));
    assert Digest(s.trace) + [] == Digest(s.trace);
  }

  lemma StopHookPlanned(cfg: Config, s: State, w: World, kept: string)
    ensures Goes(Digest(s.trace), StopHook(cfg, s, w, kept), OnStop(cfg, PlanOf(s), w, kept))
  {
    hide Digest, Flush, Judge, OnVerdict, Goes, Feedback;
    if cfg.hasHooks && s.b.hooks < MAX_STOP_INJECTIONS {
      HookPlanned(s);
      var s1, told, noted := Do(Flush(s), Wrote(HookMark)), Digest(s.trace), [Wrote(HookMark)];
      if w.hook.InjectFollowup? && w.hook.reminder != "" {
        var s2 := s1.(b := s1.b.(hooks := s1.b.hooks + 1));
        InjectPlanned(s2, w.hook.reminder);
        GoesOn(told, noted, Again(Reopen(Feedback(s2, HookFeedback(w.hook.reminder))), ForHook),
               Move(Round(ForHook), PlanOf(s2).(entries := s.entries + [User(HookFeedback(w.hook.reminder))]), []));
        assert noted + [] == noted;
      } else {
        JudgePlanned(cfg, s1, w, kept);
        GoesOn(told, noted, Judge(cfg, s1, w, kept), OnVerdict(cfg, PlanOf(s1), w, kept));
      }
    } else {
      JudgePlanned(cfg, s, w, kept);
    }
  }

  lemma OnDonePlanned(cfg: Config, s: State, w: World, text: string, leaked: bool, cleaned: string)
    requires s.inbox.accepting
    ensures Goes(Digest(s.trace), OnDone(cfg, s, w, text, leaked, cleaned),
                 OnAnswer(cfg, PlanOf(s), w, text, leaked, cleaned))
  {
    hide Digest, Recover, CloseTurn, Drain, StopHook, OnStop, Goes, Voices;
    if leaked && s.b.leaks < MAX_TOOL_XML_LEAK_RECOVERIES {
      RecoverPlanned(s, w.streaming, text, cleaned);
    } else {
      var kept, typed := (if leaked then cleaned else text), s.inbox.pending + w.typedWhileClosing;
      CloseTurnPlanned(s, w, text, kept);
      var s1 := CloseTurn(s, w, text, kept);
      DrainPlanned(s1);
      assert [] + w.late == w.late;
      var s2 := PushLate(Drain(s1), w.late);
      var notice := [TextDone(text), TurnFinished(EndTurn)];
      if typed != [] {
        AgainFor(Digest(s.trace) + notice, Reopen(s2), ForInput);
        GoesOn(Digest(s.trace), notice, Again(Reopen(s2), ForInput), Move(Round(ForInput), PlanOf(s2), []));
      } else {
        StopHookPlanned(cfg, s2, w, kept);
        GoesOn(Digest(s.trace), notice, StopHook(cfg, s2, w, kept), OnStop(cfg, PlanOf(s2), w, kept));
      }
    }
  }

  lemma AgainFor(told: seq<Act>, s: State, why: Why)
    requires told == Digest(s.trace) && s.inbox.accepting
    ensures Goes(told, Again(s, why), Move(Round(why), PlanOf(s), []))
  {
    assert told + [] == told;
  }

  lemma DispatchPlanned(s: State, w: World, calls: seq<CallId>)
    requires s.inbox.accepting
    ensures var s1 := Dispatch(s, w, calls);
            && PlanOf(s1) == PlanOf(s).(iteration := s.c.iteration + 1, cancelled := s.cancelled || w.cancelTools,
                                        waiting := s.inbox.pending + w.typedDuringTools)
            && Digest(s1.trace) == Digest(s.trace) + [Dispatched(s.c.offset, |calls|)]
            && s1.inbox.accepting
  {
    hide Digest, Tools, Reached;
    Law();
  }

  lemma CollectPlanned(s: State, w: World, calls: seq<CallId>)
    requires s.inbox.accepting
    ensures var s1 := Collect(s, w, calls);
            var n := if s.cancelled && w.started < |calls| then w.started else |calls|;
            && PlanOf(s1) == PlanOf(s).(
                 entries := s.entries + [ToolResults(calls[..n])] + Voices(s.inbox.pending + w.typedBeforeDrain),
                 waiting := [], offset := s.c.offset + |calls|)
            && Digest(s1.trace) == Digest(s.trace) && s1.inbox.accepting
  {
    hide Digest, Flush, Drain, Voices;
    Law();
    var results := ToolResults(calls[..Reached(w, calls, s.cancelled)]);
    var s1 := s.(entries := Push(s.entries, results), c := s.c.(offset := s.c.offset + |calls|));
    var s2 := Do(s1, ToolFinished(s.c.toolStep));
    FlushPlanned(s2);
    DrainPlanned(Arrive(FlushIfPending(s2), w.typedBeforeDrain));
  }

  lemma AfterCallsPlanned(s: State, w: World, calls: seq<CallId>)
    requires s.inbox.accepting
    ensures Goes(Digest(s.trace), AfterCalls(s, w, calls), AfterBatch(PlanOf(s), w, calls))
  {
    hide Digest, Collect, Voices;
    Law();
    CollectPlanned(s, w, calls);
  }

  lemma OnCallsPlanned(cfg: Config, s: State, w: World, text: string, calls: seq<CallId>)
    requires s.inbox.accepting
    ensures Goes(Digest(s.trace), OnCalls(cfg, s, w, text, calls), OnBatch(cfg, PlanOf(s), w, text, calls))
  {
    hide Digest, Dispatch, AfterCalls, AfterBatch, Chars;
    Law();
    var s1 := if w.streaming then s else Show(s, Chars(text));
    var s2 := s1.(entries := Push(s.entries, Assistant(text, calls)));
    DispatchPlanned(s2, w, calls);
    var s3 := Dispatch(s2, w, calls);
    AfterCallsPlanned(s3, w, calls);
    GoesOn(Digest(s.trace), [Dispatched(s.c.offset, |calls|)], AfterCalls(s3, w, calls),
           AfterBatch(PlanOf(s3), w, calls));
  }

  lemma AnswerPlanned(cfg: Config, s: State, w: World, reply: Reply)
    requires s.inbox.accepting
    ensures Goes(Digest(s.trace), Answer(cfg, s, w, reply), OnReply(cfg, PlanOf(s), w, reply))
  {
    hide Digest, OnDone, OnCalls, OnError, Account, OnAnswer, OnBatch, OnFailure, Goes;
    match reply {
      case Done(text, leaked, cleaned, usage, finish) =>
        var s1 := s.(finish := finish);
        AccountPlanned(s1, usage);
        OnDonePlanned(cfg, Account(s1, usage), w, text, leaked, cleaned);
        GoesOn(Digest(s.trace), [Used(usage)], OnDone(cfg, Account(s1, usage), w, text, leaked, cleaned),
               OnAnswer(cfg, PlanOf(s), w, text, leaked, cleaned));
      case Calls(text, calls, usage) =>
        AccountPlanned(s, usage);
        OnCallsPlanned(cfg, Account(s, usage), w, text, calls);
        GoesOn(Digest(s.trace), [Used(usage)], OnCalls(cfg, Account(s, usage), w, text, calls),
               OnBatch(cfg, PlanOf(s), w, text, calls));
      case Failed(e) =>
        OnErrorPlanned(cfg, s, e);
    }
  }

  /** One trip round the loop goes as the page says. */
  lemma PassPlanned(cfg: Config, s: State, w: World)
    requires s.inbox.accepting
    ensures Goes(Digest(s.trace), Pass(cfg, s, w), MoveOf(cfg, PlanOf(s), w))
  {
    hide Digest, Boundary, ModelStep, Answer, OnReply, Voices, Settle, Requests;
    BoundaryPlanned(s, w);
    var told := Digest(s.trace);
    match Boundary(s, w) {
      case Halt(_) =>
        assert told + [] == told;
      case Abandon(_) =>
      case Go(s1) =>
        ModelStepPlanned(s1, w);
        var (s2, reply) := ModelStep(s1, w);
        AnswerPlanned(cfg, s2, w, reply);
        var notice := SetNotice(s.goal) + ContextNotice(w.compaction);
        var sent := Requests(s1.entries, Settle(w.attempts, 0).calls);
        assert told + notice + sent == told + (notice + sent);
        GoesOn(told, notice + sent, Answer(cfg, s2, w, reply), OnReply(cfg, PlanOf(s2), w, reply));
    }
  }

  // ------------------------------------------------------------- refinement over whole runs

  function EndOf(r: Run): Option<Way> {
    match r
    case Going(_) => None
    case Ended(_, outcome) => Some(Out(outcome))
    case Abandoned(_) => Some(Off)
  }

  /** What is typed while a run leaves stays in its inbox and is no part of the plan. */
  predicate Follows(told: seq<Act>, r: Run, plot: Plot) {
    && EndOf(r) == plot.end && PlanOf(r.s).(waiting := plot.to.waiting) == plot.to
    && Digest(r.s.trace) == told + plot.says
  }

  lemma EpiloguePlanned(s: State, outcome: Outcome, w: World)
    ensures var s1 := Epilogue(s, outcome, w);
            && PlanOf(s1) == PlanOf(s).(waiting := s1.inbox.pending) && s1.checkpoint == s.checkpoint && s1.c == s.c
            && Digest(s1.trace) == Digest(s.trace) + Farewell(Out(outcome))
  {
    hide Digest, Flush, ContinueFor;
    Law();
    FlushPlanned(SetAccepting(Arrive(s, w.typedLeaving), false));
    assert Digest(s.trace) + [] == Digest(s.trace);
  }

  lemma {:induction false} RunPlanned(cfg: Config, s: State, script: seq<World>)
    requires s.inbox.accepting
    ensures Follows(Digest(s.trace), RunOver(cfg, s, script), PlotOf(cfg, PlanOf(s), script))
    ensures PlotOf(cfg, PlanOf(s), script).moves == RunPromises.Trips(cfg, s, script)
    decreases |script|
  {
    hide Pass, MoveOf, Epilogue, Digest;
    if script == [] {
      assert Digest(s.trace) + [] == Digest(s.trace);
    } else {
      PassPlanned(cfg, s, script[0]);
      var m := MoveOf(cfg, PlanOf(s), script[0]);
      match Pass(cfg, s, script[0]) {
        case Again(s1, _) =>
          RunPlanned(cfg, s1, script[1..]);
        case Leave(s1, outcome) =>
          EpiloguePlanned(s1, outcome, script[0]);
        case Drop(_) =>
          assert m.says + [] == m.says;
      }
    }
  }

  lemma RisePlanned(r: Run, leg: Leg)
    requires r.s.checkpoint == Some(r.s.c)
    ensures var s := LogicalRuns.Rise(r, leg);
            && PlanOf(s) == WokenUp(PlanOf(r.s), leg) && s.inbox.accepting
            && Digest(s.trace) == Digest(r.s.trace) + [RunResumed]
  {
    hide Digest;
    Law();
  }

  /** A run through any number of suspensions, with all its machinery, does what the page says and nothing else. */
  lemma {:induction false} LogicalRunPlanned(cfg: Config, s: State, script: seq<World>, legs: seq<Leg>)
    requires s.inbox.accepting
    ensures Follows(Digest(s.trace), LogicalRun(cfg, s, script, legs), LifeOf(cfg, PlanOf(s), script, legs))
    decreases |legs|
  {
    hide RunOver, PlotOf, Digest, LogicalRuns.Rise;
    LogicalRuns.LogicalRunStep(cfg, s, script, legs);
    RunPlanned(cfg, s, script);
    var r, plot := RunOver(cfg, s, script), PlotOf(cfg, PlanOf(s), script);
    if LogicalRuns.WakesUp(r, legs) {
      LogicalRuns.SleepsWithCheckpoint(cfg, s, script);
      RisePlanned(r, legs[0]);
      LogicalRunPlanned(cfg, LogicalRuns.Rise(r, legs[0]), legs[0].script, legs[1..]);
    }
  }

  /** In particular from the start: a new run's plan has its conversation, what is waiting, and its goal announced. */
  lemma RunRefinesPlan(
    cfg: Config, entries: seq<Entry>, waiting: seq<Said>, goal: Option<Goal>, left: Option<ContinueKind>,
    script: seq<World>, legs: seq<Leg>)
    ensures var r := LogicalRun(cfg, Fresh(entries, waiting, goal, left), script, legs);
            var plot := LifeOf(cfg, Plan(entries, waiting, false, 0, 0, UNSPENT, Announced(goal)), script, legs);
            && EndOf(r) == plot.end && r.s.entries == plot.to.entries && r.s.goal == plot.to.goal
            && r.s.c.iteration == plot.to.iteration && r.s.c.offset == plot.to.offset && r.s.b == plot.to.b
            && r.s.cancelled == plot.to.cancelled
            && Digest(r.s.trace) == [RunStarted] + SetNotice(goal) + plot.says
  {
    hide LogicalRun, LifeOf, Digest;
    var s := Fresh(entries, waiting, goal, left);
    FreshPlanned(entries, waiting, goal, left);
    LogicalRunPlanned(cfg, s, script, legs);
  }

  lemma FreshPlanned(entries: seq<Entry>, waiting: seq<Said>, goal: Option<Goal>, left: Option<ContinueKind>)
    ensures var s := Fresh(entries, waiting, goal, left);
            && PlanOf(s) == Plan(entries, waiting, false, 0, 0, UNSPENT, Announced(goal))
            && Digest(s.trace) == [RunStarted] + SetNotice(goal) && s.inbox.accepting
  {
    hide Digest;
    Law();
    assert [RunStarted] == Then([], RunStarted);
    NothingNoted();
  }

  lemma NothingNoted()
    ensures Digest([]) == []
  {
  }
}
