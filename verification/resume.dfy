/**
 A run that sleeps and is woken compared with the run that never slept.

 Counters cross a suspension, budgets do not. So the two runs take the same way,
 with the same counters, trip by trip, exactly until a trip asks for a budget
 that only the unbroken run has used up, or until the sleeper forgets a cancel.
 */
module Resume {
  import opened Transcript
  import opened Options
  import opened Retry
  import opened AgentLoop
  import SessionLog

  // ------------------------------------------------------------- courses

  datatype Way = Round(why: Why) | Out(outcome: Outcome) | Off

  datatype Step = Step(way: Way, c: Counters)

  /** Falling asleep after a tool batch is not leaving. */
  function StepOf(r: Trip): Step {
    match r
    case Again(s, why) => Step(Round(why), s.c)
    case Leave(s, outcome) => Step(if outcome == Failure(Suspended) then Round(ForTools) else Out(outcome), s.c)
    case Drop(s) => Step(Off, s.c)
  }

  predicate Sleeps(r: Trip) {
    r.Leave? && r.outcome == Failure(Suspended)
  }

  function Woken(s: State, outcome: Outcome, w: World, leg: Leg): State {
    Resumed(Epilogue(s, outcome, w), leg.entries, leg.waiting)
  }

  /** Where a run with suspensions stands after each of its trips. */
  function Course(cfg: Config, s: State, script: seq<World>, legs: seq<Leg>): seq<Step>
    decreases |legs|, |script|
  {
    if script == [] then []
    else
      var r := Pass(cfg, s, script[0]);
      [StepOf(r)] +
      if r.Again? then Course(cfg, r.s, script[1..], legs)
      else if Sleeps(r) && legs != [] then
        Course(cfg, Woken(r.s, r.outcome, script[0], legs[0]), legs[0].script, legs[1..])
      else []
  }

  /** A trip told to a run that never sleeps: what waited for the sleeper is typed just before the trip. */
  function Told(w: World, early: seq<Said>): World {
    w.(suspend := false, typedBefore := early + w.typedBefore)
  }

  /** What the run meets, told to one that never sleeps; `early` waits for the first trip. */
  function Joined(cfg: Config, s: State, early: seq<Said>, script: seq<World>, legs: seq<Leg>): seq<World>
    decreases |legs|, |script|
  {
    if script == [] then []
    else
      var r := Pass(cfg, s, script[0]);
      [Told(script[0], early)] +
      if r.Again? then Joined(cfg, r.s, [], script[1..], legs)
      else if Sleeps(r) && legs != [] then
        Joined(cfg, Woken(r.s, r.outcome, script[0], legs[0]), legs[0].waiting, legs[0].script, legs[1..])
      else []
  }

  // ------------------------------------------------------------- agreement

  predicate SameGoal(g: Option<Goal>, h: Option<Goal>) {
    if g.None? then h.None?
    else h.Some? && g.value.condition == h.value.condition && g.value.pendingSet == h.value.pendingSet
  }

  /** All that decides the way of a trip, except the budgets. */
  predicate Like(u: State, s: State) {
    && u.c == s.c && u.inbox.accepting == s.inbox.accepting && u.inbox.pending == s.inbox.pending
    && u.cancelled == s.cancelled && SameGoal(u.goal, s.goal)
  }

  /** `s` has slept where `u` has not: it has used no more, knows of no more cancels, and `early` waits for it. */
  predicate Agree(u: State, s: State, early: seq<Said>) {
    && u.c == s.c && u.inbox.accepting && s.inbox.accepting && s.inbox.pending == u.inbox.pending + early
    && (s.cancelled ==> u.cancelled) && SameGoal(u.goal, s.goal)
    && s.b.leaks <= u.b.leaks && s.b.hooks <= u.b.hooks && (s.b.resetTried ==> u.b.resetTried)
  }

  /** The trip asks for something that is still there after a sleep, and used up without it. */
  predicate Binds(cfg: Config, u: State, s: State, w: World) {
    !s.cancelled && !w.cancelBefore &&
    (u.cancelled ||
     (!w.compaction.CompactionCancelled? &&
      match Settle(w.attempts, 0).reply
      case Failed(e) => e.ContextTooLong() && u.b.resetTried && !s.b.resetTried
      case Calls(_, _, _) => false
      case Done(_, leaked, _, _, _) =>
        if leaked && s.b.leaks < MAX_TOOL_XML_LEAK_RECOVERIES then u.b.leaks >= MAX_TOOL_XML_LEAK_RECOVERIES
        else
          && w.typedDuringModel + w.typedWhileClosing == [] && cfg.hasHooks
          && w.hook.InjectFollowup? && w.hook.reminder != ""
          && u.b.hooks >= MAX_STOP_INJECTIONS && s.b.hooks < MAX_STOP_INJECTIONS))
  }

  // ------------------------------------------------------------- stages

  lemma DrainLike(u: State, s: State)
    requires Like(u, s)
    ensures Like(Drain(u), Drain(s)) && Drain(u).b == u.b && Drain(s).b == s.b && Drain(s).inbox.pending == []
  {
    hide WriteUsers, PushUsers;
  }

  lemma FlushLike(u: State, s: State)
    requires Like(u, s)
    ensures Like(Flush(u), Flush(s)) && Flush(u).b == u.b && Flush(s).b == s.b && Flush(s).inbox == s.inbox
    ensures Flush(u).inbox == u.inbox && Flush(u).goal == u.goal && Flush(s).goal == s.goal
    ensures Flush(u).c == u.c && Flush(s).c == s.c
    ensures Flush(u).cancelled == u.cancelled && Flush(s).cancelled == s.cancelled
  {
    hide Card, Then;
  }

  lemma InstallLike(u: State, s: State, a: seq<Entry>, b: seq<Entry>)
    requires Like(u, s)
    ensures Like(Install(u, a), Install(s, b)) && Install(u, a).b == u.b && Install(s, b).b == s.b
    ensures Install(s, b).inbox == s.inbox && Install(s, b).c == s.c
  {
    hide Flush, Then;
    FlushLike(u.(entries := a), s.(entries := b));
  }

  lemma CompactLike(u: State, s: State, compaction: Compaction)
    requires Like(u, s)
    ensures var g, h := Compact(u, compaction), Compact(s, compaction);
            && Like(g.s, h.s) && g.s.b == u.b && h.s.b == s.b && h.s.inbox == s.inbox && h.s.c == s.c
            && !g.Halt? && !h.Halt? && g.Abandon? == compaction.CompactionCancelled? == h.Abandon?
  {
    hide Install;
    match compaction {
      case Summarised => InstallLike(u, s, SUMMARY, SUMMARY);
      case Replaced(es) => InstallLike(u, s, es, es);
      case _ =>
    }
  }

  lemma MarkerLike(u: State, s: State)
    requires Like(u, s)
    ensures var u1, s1 := MaybeSetMarker(u), MaybeSetMarker(s);
            Like(u1, s1) && u1.b == u.b && s1.b == s.b && s1.inbox == s.inbox && s1.c == s.c
  {
    hide Then;
  }

  /** Both at the top, neither cancelled: the boundary takes them the same way and empties their inboxes. */
  lemma BoundaryLike(u: State, s: State, w: World, early: seq<Said>)
    requires Agree(u, s, early) && !u.cancelled
    ensures var g, h := Boundary(u, Told(w, early)), Boundary(s, w);
            && Like(g.s, h.s) && g.s.b == u.b && h.s.b == s.b && h.s.inbox.pending == [] && h.s.inbox.accepting
            && (w.cancelBefore <==> g.Halt?) && (w.cancelBefore <==> h.Halt?)
            && (g.Abandon? <==> h.Abandon?) && h.s.c == s.c
            && (!w.cancelBefore ==> (h.Abandon? <==> w.compaction.CompactionCancelled?))
  {
    hide Drain, Compact, MaybeSetMarker;
    var u1 := Arrive(u, early + w.typedBefore).(cancelled := u.cancelled || w.cancelBefore);
    var s1 := Arrive(s, w.typedBefore).(cancelled := s.cancelled || w.cancelBefore);
    assert u.inbox.pending + (early + w.typedBefore) == u.inbox.pending + early + w.typedBefore;
    DrainLike(u1, s1);
    DrainKeepsOpen(s1);
    if !w.cancelBefore {
      MarkerLike(Drain(u1), Drain(s1));
      CompactLike(MaybeSetMarker(Drain(u1)), MaybeSetMarker(Drain(s1)), w.compaction);
    }
  }

  lemma DrainKeepsOpen(s: State)
    ensures Drain(s).inbox.accepting == s.inbox.accepting && Drain(s).c == s.c && Drain(s).cancelled == s.cancelled
  {
  }

  lemma EditGoalLike(u: State, s: State, edit: GoalEdit)
    requires Like(u, s)
    ensures var u1, s1 := EditGoal(u, edit), EditGoal(s, edit);
            Like(u1, s1) && u1.b == u.b && s1.b == s.b && s1.inbox == s.inbox
  {
  }

  lemma TryModelLike(u: State, s: State, streaming: bool, a: Attempts)
    requires Like(u, s)
    ensures var (u1, p), (s1, q) := TryModel(u, streaming, a), TryModel(s, streaming, a);
            && Like(u1, s1) && u1.b == u.b && s1.b == s.b && s1.inbox == s.inbox && p == q == Settle(a, 0).reply
  {
    hide AskTrace, AskAtoms, Settle;
  }

  lemma ModelStepLike(u: State, s: State, w: World, early: seq<Said>)
    requires Like(u, s) && s.inbox.accepting && s.inbox.pending == []
    ensures var (u1, p), (s1, q) := ModelStep(u, Told(w, early)), ModelStep(s, w);
            && Like(u1, s1) && u1.b == u.b && s1.b == s.b && p == q == Settle(w.attempts, 0).reply
            && s1.inbox.pending == w.typedDuringModel && s1.inbox.accepting
  {
    hide Then, TryModel, Settle, EditGoal;
    assert [] + w.typedDuringModel == w.typedDuringModel;
    TryModelLike(StartTurn(u), StartTurn(s), w.streaming, w.attempts);
    var u1, s1 := TryModel(StartTurn(u), w.streaming, w.attempts).0, TryModel(StartTurn(s), w.streaming, w.attempts).0;
    EditGoalLike(Arrive(Do(u1, ModelFinished(u1.c.modelStep)), w.typedDuringModel),
                 Arrive(Do(s1, ModelFinished(s1.c.modelStep)), w.typedDuringModel), w.goalEdit);
  }

  lemma AccountLike(u: State, s: State, usage: Usage)
    requires Like(u, s)
    ensures Like(Account(u, usage), Account(s, usage)) && Account(u, usage).b == u.b
    ensures Account(s, usage).b == s.b && Account(s, usage).inbox == s.inbox
  {
    hide Then;
  }

  lemma CloseTurnLike(u: State, s: State, w: World, early: seq<Said>, text: string, cleaned: string)
    requires Like(u, s) && s.inbox.accepting
    ensures var u1, s1 := CloseTurn(u, Told(w, early), text, cleaned), CloseTurn(s, w, text, cleaned);
            && Like(u1, s1) && u1.b == u.b && s1.b == s.b && !s1.inbox.accepting
            && s1.inbox.pending == s.inbox.pending + w.typedWhileClosing
  {
    hide Then, Flush, Push;
    var u1 := Do(Do(u.(seg := u.seg.(final := text)), TextDone(text)), TurnFinished(EndTurn));
    var s1 := Do(Do(s.(seg := s.seg.(final := text)), TextDone(text)), TurnFinished(EndTurn));
    FlushLike(u1, s1);
  }

  /** The same way round or out, and alike afterwards, with what budgets are left untouched or spent alike. */
  predicate Same(u: State, s: State, ru: Trip, rs: Trip) {
    && StepOf(ru) == StepOf(rs) && !Sleeps(rs) && (ru.Again? <==> rs.Again?)
    && (rs.Again? ==> Like(ru.s, rs.s) && rs.s.inbox.accepting
                      && rs.s.b.leaks - s.b.leaks == ru.s.b.leaks - u.b.leaks
                      && rs.s.b.hooks - s.b.hooks == ru.s.b.hooks - u.b.hooks
                      && (rs.s.b.resetTried ==> s.b.resetTried || ru.s.b.resetTried)
                      && (u.b.resetTried ==> ru.s.b.resetTried))
  }

  lemma PersistLike(u: State, s: State, condition: string, reason: string)
    requires Like(u, s)
    ensures var u1, s1 := Persist(u, condition, reason), Persist(s, condition, reason);
            && Like(u1, s1) && s1.inbox.accepting
            && u1.b == u.b.(goals := u.b.goals + 1) && s1.b == s.b.(goals := s.b.goals + 1)
  {
    hide Then, Push;
  }

  predicate Judged(r: Trip) {
    match r
    case Again(_, why) => why == ForGoal
    case Leave(_, outcome) => outcome != Failure(Suspended)
    case Drop(_) => false
  }

  lemma ConcludeCounters(s: State, kind: MarkKind, a: Act)
    ensures Conclude(s, kind, a).c == s.c
  {
  }

  lemma JudgeSame(cfg: Config, u: State, s: State, w: World, early: seq<Said>, text: string)
    requires Like(u, s)
    ensures Same(u, s, Judge(cfg, u, Told(w, early), text), Judge(cfg, s, w, text))
    ensures Judged(Judge(cfg, u, Told(w, early), text))
  {
    hide Then, Flush, Persist, Conclude;
    if s.goal.Some? && cfg.hasJudge {
      FlushLike(u, s);
      var u1 := Flush(u).(cancelled := u.cancelled || w.cancelJudge);
      var s1 := Flush(s).(cancelled := s.cancelled || w.cancelJudge);
      match w.verdict {
        case IsAchieved =>
          ConcludeCounters(u1, Achieved, GoalAchieved);
          ConcludeCounters(s1, Achieved, GoalAchieved);
        case IsImpossible =>
          ConcludeCounters(u1, Impossible, GoalImpossible);
          ConcludeCounters(s1, Impossible, GoalImpossible);
        case NotYet(reason) =>
          PersistLike(u1, s1, s.goal.value.condition, reason);
      }
    } else if s.goal.Some? {
      FlushLike(u, s);
    }
  }

  predicate Injects(cfg: Config, w: World) {
    cfg.hasHooks && w.hook.InjectFollowup? && w.hook.reminder != ""
  }

  predicate MayInject(b: Budgets) {
    b.hooks < MAX_STOP_INJECTIONS
  }

  /** What a hook with something to say does while it still may. */
  lemma StopHookSays(cfg: Config, s: State, w: World, text: string)
    requires Injects(cfg, w) && MayInject(s.b)
    ensures var r := StopHook(cfg, s, w, text);
            && r.Again? && r.why == ForHook && r.s.c == s.c && r.s.b == s.b.(hooks := s.b.hooks + 1)
            && r.s.goal == s.goal && r.s.cancelled == s.cancelled && r.s.inbox == s.inbox.(accepting := true)
  {
    hide Then, Flush, Push;
    FlushLike(s, s);
  }

  /** What it does when it may not, or has nothing to say. */
  lemma StopHookPasses(cfg: Config, u: State, s: State, w: World, early: seq<Said>, text: string)
    requires Like(u, s) && !(Injects(cfg, w) && MayInject(s.b)) && !(Injects(cfg, w) && MayInject(u.b))
    ensures Same(u, s, StopHook(cfg, u, Told(w, early), text), StopHook(cfg, s, w, text))
    ensures Judged(StopHook(cfg, u, Told(w, early), text))
  {
    hide Then, Flush, Judge, Same;
    FlushLike(u, s);
    var u1 := if cfg.hasHooks && MayInject(u.b) then Do(Flush(u), Wrote(HookMark)) else u;
    var s1 := if cfg.hasHooks && MayInject(s.b) then Do(Flush(s), Wrote(HookMark)) else s;
    JudgeSame(cfg, u1, s1, w, early, text);
    SameBudgets(u, s, u1, s1, Judge(cfg, u1, Told(w, early), text), Judge(cfg, s1, w, text));
  }

  lemma SameBudgets(u: State, s: State, u1: State, s1: State, ru: Trip, rs: Trip)
    requires u.b == u1.b && s.b == s1.b && Same(u1, s1, ru, rs)
    ensures Same(u, s, ru, rs)
  {
  }

  lemma RecoverLike(u: State, s: State, streaming: bool, text: string, cleaned: string)
    requires Like(u, s) && s.inbox.accepting
    ensures Same(u, s, Recover(u, streaming, text, cleaned), Recover(s, streaming, text, cleaned))
    ensures Recover(u, streaming, text, cleaned).why == Recover(s, streaming, text, cleaned).why == ForLeak
  {
    hide Then, Chars, Push;
  }

  lemma RecoverRounds(s: State, streaming: bool, text: string, cleaned: string)
    ensures var r := Recover(s, streaming, text, cleaned); r.Again? && r.why == ForLeak
  {
    hide Then, Chars, Push;
  }

  predicate MayRecover(b: Budgets) {
    b.leaks < MAX_TOOL_XML_LEAK_RECOVERIES
  }

  lemma ReopenSame(u: State, s: State, u1: State, s1: State)
    requires Like(u1, s1) && u1.b == u.b && s1.b == s.b
    ensures Same(u, s, Again(Reopen(u1), ForInput), Again(Reopen(s1), ForInput))
  {
  }

  /** An answer that is closed: the same way, unless only the sleeper still has a hook to spend. */
  lemma CloseSame(
    cfg: Config, u: State, s: State, w: World, early: seq<Said>, text: string, leaked: bool, cleaned: string)
    requires Like(u, s) && s.inbox.accepting && s.b.hooks <= u.b.hooks
    requires !(leaked && MayRecover(u.b)) && !(leaked && MayRecover(s.b))
    ensures var ru := OnDone(cfg, u, Told(w, early), text, leaked, cleaned);
            var rs := OnDone(cfg, s, w, text, leaked, cleaned);
            if s.inbox.pending + w.typedWhileClosing == [] && Injects(cfg, w) && MayInject(s.b) && !MayInject(u.b)
            then StepOf(ru) != StepOf(rs)
            else Same(u, s, ru, rs)
    ensures var ru := OnDone(cfg, u, Told(w, early), text, leaked, cleaned); ru.Again? ==> ru.why != ForLeak
  {
    hide Then, CloseTurn, Drain, StopHook, Recover, Same;
    var kept := if leaked then cleaned else text;
    CloseTurnLike(u, s, w, early, text, kept);
    var u1, s1 := CloseTurn(u, Told(w, early), text, kept), CloseTurn(s, w, text, kept);
    DrainLike(u1, s1);
    var u2, s2 := PushLate(Drain(u1), w.late), PushLate(Drain(s1), w.late);
    if s1.inbox.pending != [] {
      ReopenSame(u, s, u2, s2);
    } else if Injects(cfg, w) && MayInject(s.b) {
      StopHookSays(cfg, s2, w, kept);
      if MayInject(u.b) {
        StopHookSays(cfg, u2, Told(w, early), kept);
        HooksSame(u2, s2, StopHook(cfg, u2, Told(w, early), kept), StopHook(cfg, s2, w, kept));
        SameBudgets(u, s, u2, s2, StopHook(cfg, u2, Told(w, early), kept), StopHook(cfg, s2, w, kept));
      } else {
        StopHookPasses(cfg, u2, u2, w, early, kept);
      }
    } else {
      StopHookPasses(cfg, u2, s2, w, early, kept);
      SameBudgets(u, s, u2, s2, StopHook(cfg, u2, Told(w, early), kept), StopHook(cfg, s2, w, kept));
    }
  }

  lemma HooksSame(u: State, s: State, ru: Trip, rs: Trip)
    requires Like(u, s) && ru.Again? && rs.Again? && ru.why == rs.why
    requires ru.s.c == u.c && ru.s.b == u.b.(hooks := u.b.hooks + 1) && ru.s.goal == u.goal
    requires rs.s.c == s.c && rs.s.b == s.b.(hooks := s.b.hooks + 1) && rs.s.goal == s.goal
    requires ru.s.cancelled == u.cancelled && ru.s.inbox == u.inbox.(accepting := true)
    requires rs.s.cancelled == s.cancelled && rs.s.inbox == s.inbox.(accepting := true)
    ensures Same(u, s, ru, rs)
  {
  }

  lemma OnDoneSame(
    cfg: Config, u: State, s: State, w: World, early: seq<Said>, text: string, leaked: bool, cleaned: string)
    requires Like(u, s) && s.inbox.accepting && s.b.hooks <= u.b.hooks && s.b.leaks <= u.b.leaks
    ensures var ru := OnDone(cfg, u, Told(w, early), text, leaked, cleaned);
            var rs := OnDone(cfg, s, w, text, leaked, cleaned);
            var binds := if leaked && MayRecover(s.b) then !MayRecover(u.b)
                         else s.inbox.pending + w.typedWhileClosing == [] && Injects(cfg, w)
                              && MayInject(s.b) && !MayInject(u.b);
            if binds then StepOf(ru) != StepOf(rs) else Same(u, s, ru, rs)
  {
    hide Like, Same, OnDone, CloseTurn, Drain, StopHook, Recover;
    if leaked && MayRecover(s.b) {
      OnDoneRecovers(cfg, s, w, text, cleaned);
      RecoverRounds(s, w.streaming, text, cleaned);
      if MayRecover(u.b) {
        OnDoneRecovers(cfg, u, Told(w, early), text, cleaned);
        RecoverLike(u, s, w.streaming, text, cleaned);
      } else {
        ClosedWay(cfg, u, Told(w, early), text, cleaned);
      }
    } else {
      CloseSame(cfg, u, s, w, early, text, leaked, cleaned);
    }
  }

  lemma OnDoneRecovers(cfg: Config, s: State, w: World, text: string, cleaned: string)
    requires MayRecover(s.b)
    ensures OnDone(cfg, s, w, text, true, cleaned) == Recover(s, w.streaming, text, cleaned)
  {
  }

  lemma ClosedWay(cfg: Config, s: State, w: World, text: string, cleaned: string)
    requires !MayRecover(s.b)
    ensures StepOf(OnDone(cfg, s, w, text, true, cleaned)).way != Round(ForLeak)
  {
    hide CloseTurn, Drain, StopHook, Recover;
    var s1 := PushLate(Drain(CloseTurn(s, w, cleaned, cleaned)), w.late);
    forall s1: State ensures StepOf(StopHook(cfg, s1, w, cleaned)).way != Round(ForLeak) {
      LikeItself(s1);
      if Injects(cfg, w) && MayInject(s1.b) {
        StopHookSays(cfg, s1, w, cleaned);
      } else {
        StopHookWay(cfg, s1, w, cleaned);
      }
    }
  }

  lemma LikeItself(s: State)
    ensures Like(s, s)
  {
  }

  lemma StopHookWay(cfg: Config, s: State, w: World, text: string)
    ensures StepOf(StopHook(cfg, s, w, text)).way != Round(ForLeak)
  {
    hide Flush, Persist, Conclude, Feedback;
  }

  lemma DispatchLike(u: State, s: State, w: World, early: seq<Said>, calls: seq<CallId>)
    requires Like(u, s)
    ensures var u1, s1 := Dispatch(u, Told(w, early), calls), Dispatch(s, w, calls);
            Like(u1, s1) && u1.b == u.b && s1.b == s.b && s1.inbox.accepting == s.inbox.accepting
  {
    hide Then, Tools, Reached;
  }

  lemma CollectLike(u: State, s: State, w: World, early: seq<Said>, calls: seq<CallId>)
    requires Like(u, s)
    ensures var u1, s1 := Collect(u, Told(w, early), calls), Collect(s, w, calls);
            && Like(u1, s1) && u1.b == u.b && s1.b == s.b && s1.inbox.pending == []
            && s1.inbox.accepting == s.inbox.accepting
  {
    hide Then, Push, Flush, Drain, Reached;
    var ru := ToolResults(calls[..Reached(Told(w, early), calls, u.cancelled)]);
    var rs := ToolResults(calls[..Reached(w, calls, s.cancelled)]);
    var u1 := Do(u.(entries := Push(u.entries, ru), c := u.c.(offset := u.c.offset + |calls|)),
                 ToolFinished(u.c.toolStep));
    var s1 := Do(s.(entries := Push(s.entries, rs), c := s.c.(offset := s.c.offset + |calls|)),
                 ToolFinished(s.c.toolStep));
    FlushLike(u1, s1);
    var u2, s2 := Arrive(FlushIfPending(u1), w.typedBeforeDrain), Arrive(FlushIfPending(s1), w.typedBeforeDrain);
    DrainLike(u2, s2);
    DrainKeepsOpen(s2);
  }

  /** What the unbroken run shares with the one that has just fallen asleep. */
  predicate Slept(u: State, s: State) {
    && u.c == s.c && s.checkpoint == Some(s.c) && u.inbox.accepting && u.inbox.pending == []
    && SameGoal(u.goal, s.goal) && u.cancelled == s.cancelled
  }

  lemma AfterCallsSame(u: State, s: State, w: World, early: seq<Said>, calls: seq<CallId>)
    requires Like(u, s) && s.inbox.accepting
    ensures var ru, rs := AfterCalls(u, Told(w, early), calls), AfterCalls(s, w, calls);
            && StepOf(ru) == StepOf(rs)
            && (if Sleeps(rs) then ru.Again? && Slept(ru.s, rs.s) else Same(u, s, ru, rs))
  {
    hide Then, Collect;
    if w.toolError.None? {
      CollectLike(u, s, w, early, calls);
    }
  }

  function Replied(s: State, streaming: bool, text: string, calls: seq<CallId>): State {
    (if streaming then s else Show(s, Chars(text))).(entries := Push(s.entries, Assistant(text, calls)))
  }

  lemma RepliedLike(u: State, s: State, streaming: bool, text: string, calls: seq<CallId>)
    requires Like(u, s)
    ensures var u1, s1 := Replied(u, streaming, text, calls), Replied(s, streaming, text, calls);
            Like(u1, s1) && u1.b == u.b && s1.b == s.b && s1.inbox == s.inbox && s1.c == s.c
  {
    hide Chars, Push;
  }

  lemma OnCallsIs(cfg: Config, s: State, w: World, text: string, calls: seq<CallId>)
    ensures var s1 := Replied(s, w.streaming, text, calls);
            OnCalls(cfg, s, w, text, calls) ==
            if cfg.maxToolIterations.Some? && s.c.iteration >= cfg.maxToolIterations.value then
              Leave(Do(s1, TurnFinished(MaxIterations)), Failure(Other(false)))
            else AfterCalls(Dispatch(s1, w, calls), w, calls)
  {
    hide Chars, Push, AfterCalls, Dispatch;
  }

  lemma OnCallsSame(cfg: Config, u: State, s: State, w: World, early: seq<Said>, text: string, calls: seq<CallId>)
    requires Like(u, s) && s.inbox.accepting
    ensures var ru, rs := OnCalls(cfg, u, Told(w, early), text, calls), OnCalls(cfg, s, w, text, calls);
            && StepOf(ru) == StepOf(rs)
            && (if Sleeps(rs) then ru.Again? && Slept(ru.s, rs.s) else Same(u, s, ru, rs))
  {
    hide OnCalls, Replied, Dispatch, AfterCalls, Slept, Same, Do;
    OnCallsIs(cfg, u, Told(w, early), text, calls);
    OnCallsIs(cfg, s, w, text, calls);
    RepliedLike(u, s, w.streaming, text, calls);
    var u1, s1 := Replied(u, w.streaming, text, calls), Replied(s, w.streaming, text, calls);
    if cfg.maxToolIterations.Some? && s.c.iteration >= cfg.maxToolIterations.value {
      GivesUpSame(u, s, u1, s1);
    } else {
      DispatchLike(u1, s1, w, early, calls);
      var u2, s2 := Dispatch(u1, Told(w, early), calls), Dispatch(s1, w, calls);
      AfterCallsSame(u2, s2, w, early, calls);
      if !Sleeps(AfterCalls(s2, w, calls)) {
        SameBudgets(u, s, u2, s2, AfterCalls(u2, Told(w, early), calls), AfterCalls(s2, w, calls));
      }
    }
  }

  lemma GivesUpSame(u: State, s: State, u1: State, s1: State)
    requires u1.c == s1.c
    ensures Same(u, s, Leave(Do(u1, TurnFinished(MaxIterations)), Failure(Other(false))),
                 Leave(Do(s1, TurnFinished(MaxIterations)), Failure(Other(false))))
    ensures !Sleeps(Leave(Do(s1, TurnFinished(MaxIterations)), Failure(Other(false))))
    ensures StepOf(Leave(Do(u1, TurnFinished(MaxIterations)), Failure(Other(false))))
            == StepOf(Leave(Do(s1, TurnFinished(MaxIterations)), Failure(Other(false))))
  {
    hide Then;
  }

  lemma OnErrorSame(cfg: Config, u: State, s: State, e: ClientError)
    requires Like(u, s) && s.inbox.accepting && (s.b.resetTried ==> u.b.resetTried)
    ensures var ru, rs := OnError(cfg, u, e), OnError(cfg, s, e);
            if e.ContextTooLong() && u.b.resetTried && !s.b.resetTried then StepOf(ru) != StepOf(rs)
            else Same(u, s, ru, rs)
  {
    hide Then, Install, EmergencyReset;
    InstallLike(u.(b := u.b.(resetTried := true)), s.(b := s.b.(resetTried := true)),
                EmergencyReset(u.entries, cfg.keepRecentTurns), EmergencyReset(s.entries, cfg.keepRecentTurns));
  }

  // ------------------------------------------------------------- one trip

  /** After a trip both runs made: still in agreement, or the sleeper's falls asleep where the other goes on. */
  predicate Onward(ru: Trip, rs: Trip) {
    && StepOf(ru) == StepOf(rs)
    && (rs.Again? ==> ru.Again? && Agree(ru.s, rs.s, []) && ru.s.cancelled == rs.s.cancelled)
    && (Sleeps(rs) ==> ru.Again? && Slept(ru.s, rs.s))
    && (ru.Again? ==> rs.Again? || Sleeps(rs))
  }

  lemma SameOnward(u: State, s: State, ru: Trip, rs: Trip)
    requires Same(u, s, ru, rs)
    requires s.b.leaks <= u.b.leaks && s.b.hooks <= u.b.hooks && (s.b.resetTried ==> u.b.resetTried)
    ensures Onward(ru, rs)
  {
    if rs.Again? {
      assert ru.s.inbox.pending + [] == ru.s.inbox.pending;
    }
  }

  /** A trip from agreement: the same way with the same counters, if and only if no budget binds. */
  lemma PassAgrees(cfg: Config, u: State, s: State, w: World, early: seq<Said>)
    requires Agree(u, s, early)
    ensures var ru, rs := Pass(cfg, u, Told(w, early)), Pass(cfg, s, w);
            if Binds(cfg, u, s, w) then StepOf(ru) != StepOf(rs) else Onward(ru, rs)
  {
    hide Boundary, ModelStep, OnDone, OnCalls, OnError, Account, Settle, Same, Like, SameGoal, Slept;
    if u.cancelled || w.cancelBefore {
      Halts(u, Told(w, early));
      if s.cancelled || w.cancelBefore {
        Halts(s, w);
      } else {
        GoesOn(cfg, s, w);
      }
    } else {
      BoundaryLike(u, s, w, early);
      LikeMeans(Boundary(u, Told(w, early)).s, Boundary(s, w).s);
      if Boundary(s, w).Go? {
        var u1, s1 := Boundary(u, Told(w, early)).s, Boundary(s, w).s;
        ModelStepLike(u1, s1, w, early);
        var (u2, p) := ModelStep(u1, Told(w, early));
        var (s2, reply) := ModelStep(s1, w);
        match reply {
          case Done(text, leaked, cleaned, usage, finish) =>
            FinishLike(u2, s2, finish);
            AccountLike(u2.(finish := finish), s2.(finish := finish), usage);
            var u3, s3 := Account(u2.(finish := finish), usage), Account(s2.(finish := finish), usage);
            OnDoneSame(cfg, u3, s3, w, early, text, leaked, cleaned);
            var ru := OnDone(cfg, u3, Told(w, early), text, leaked, cleaned);
            var rs := OnDone(cfg, s3, w, text, leaked, cleaned);
            if Same(u3, s3, ru, rs) {
              SameOnward(u3, s3, ru, rs);
            }
          case Calls(text, calls, usage) =>
            AccountLike(u2, s2, usage);
            var u3, s3 := Account(u2, usage), Account(s2, usage);
            OnCallsSame(cfg, u3, s3, w, early, text, calls);
            var ru, rs := OnCalls(cfg, u3, Told(w, early), text, calls), OnCalls(cfg, s3, w, text, calls);
            if Same(u3, s3, ru, rs) {
              SameOnward(u3, s3, ru, rs);
            }
          case Failed(e) =>
            OnErrorSame(cfg, u2, s2, e);
            if Same(u2, s2, OnError(cfg, u2, e), OnError(cfg, s2, e)) {
              SameOnward(u2, s2, OnError(cfg, u2, e), OnError(cfg, s2, e));
            }
        }
      }
    }
  }

  lemma Halts(s: State, w: World)
    requires s.cancelled || w.cancelBefore
    ensures Boundary(s, w).Halt? && Boundary(s, w).s.c == s.c
  {
    hide Compact, MaybeSetMarker, WriteUsers, PushUsers;
  }

  lemma BoundaryCounters(s: State, w: World)
    ensures Boundary(s, w).s.c == s.c
  {
    hide Drain, Install;
    var s1 := Arrive(s, w.typedBefore).(cancelled := s.cancelled || w.cancelBefore);
    DrainKeepsOpen(s1);
    var s2 := MaybeSetMarker(Drain(s1));
    LikeItself(s2);
    InstallLike(s2, s2, SUMMARY, SUMMARY);
    if w.compaction.Replaced? {
      InstallLike(s2, s2, w.compaction.entries, w.compaction.entries);
    }
  }

  lemma ModelStepCounters(s: State, w: World)
    ensures ModelStep(s, w).0.c.modelStep == s.c.modelStep + 1
  {
    hide Then, AskTrace, AskAtoms, Settle;
  }

  lemma JudgeCounters(cfg: Config, s: State, w: World, text: string)
    ensures Judge(cfg, s, w, text).s.c == s.c
  {
    hide Then, Flush, Push, Conclude;
    LikeItself(s);
    FlushLike(s, s);
    var s1 := Flush(s).(cancelled := s.cancelled || w.cancelJudge);
    ConcludeCounters(s1, Achieved, GoalAchieved);
    ConcludeCounters(s1, Impossible, GoalImpossible);
  }

  lemma StopHookCounters(cfg: Config, s: State, w: World, text: string)
    ensures StopHook(cfg, s, w, text).s.c == s.c
  {
    hide Then, Flush, Push, Judge;
    LikeItself(s);
    FlushLike(s, s);
    JudgeCounters(cfg, s, w, text);
    JudgeCounters(cfg, Do(Flush(s), Wrote(HookMark)), w, text);
  }

  lemma OnDoneCounters(cfg: Config, s: State, w: World, text: string, leaked: bool, cleaned: string)
    ensures OnDone(cfg, s, w, text, leaked, cleaned).s.c == s.c
  {
    hide CloseTurn, Drain, StopHook, Push, Chars, Then;
    var kept := if leaked then cleaned else text;
    CloseTurnCounters(s, w, text, kept);
    DrainKeepsOpen(CloseTurn(s, w, text, kept));
    StopHookCounters(cfg, PushLate(Drain(CloseTurn(s, w, text, kept)), w.late), w, kept);
  }

  lemma CloseTurnCounters(s: State, w: World, text: string, cleaned: string)
    ensures CloseTurn(s, w, text, cleaned).c == s.c
  {
    hide Then, Flush, Push;
    var s1 := Do(Do(s.(seg := s.seg.(final := text)), TextDone(text)), TurnFinished(EndTurn));
    LikeItself(s1);
    FlushLike(s1, s1);
  }

  lemma CollectCounters(s: State, w: World, calls: seq<CallId>)
    ensures Collect(s, w, calls).c == s.c.(offset := s.c.offset + |calls|)
  {
    hide Then, Flush, Push, Drain, Reached;
    var results := ToolResults(calls[..Reached(w, calls, s.cancelled)]);
    var s1 := Do(s.(entries := Push(s.entries, results), c := s.c.(offset := s.c.offset + |calls|)),
                 ToolFinished(s.c.toolStep));
    LikeItself(s1);
    FlushLike(s1, s1);
    DrainKeepsOpen(Arrive(FlushIfPending(s1), w.typedBeforeDrain));
  }

  lemma OnCallsCounters(cfg: Config, s: State, w: World, text: string, calls: seq<CallId>)
    ensures OnCalls(cfg, s, w, text, calls).s.c.modelStep == s.c.modelStep
  {
    hide Collect, OnCalls, Chars, Tools, Push, Then, Reached;
    OnCallsIs(cfg, s, w, text, calls);
    CollectCounters(Dispatch(Replied(s, w.streaming, text, calls), w, calls), w, calls);
  }

  lemma OnErrorCounters(cfg: Config, s: State, e: ClientError)
    ensures OnError(cfg, s, e).s.c == s.c
  {
    hide Then, Install, EmergencyReset;
    var s1 := s.(b := s.b.(resetTried := true));
    LikeItself(s1);
    InstallLike(s1, s1, EmergencyReset(s.entries, cfg.keepRecentTurns), EmergencyReset(s.entries, cfg.keepRecentTurns));
  }

  /** A trip that is not halted at the top either is dropped or asks the model. */
  lemma GoesOn(cfg: Config, s: State, w: World)
    requires !s.cancelled && !w.cancelBefore
    ensures Pass(cfg, s, w).Drop? || Pass(cfg, s, w).s.c.modelStep == s.c.modelStep + 1
  {
    hide Boundary, ModelStep, OnDone, OnCalls, OnError;
    NotHalted(s, w);
    BoundaryCounters(s, w);
    match Boundary(s, w) {
      case Halt(_) =>
      case Abandon(_) =>
      case Go(s1) =>
        ModelStepCounters(s1, w);
        var (s2, reply) := ModelStep(s1, w);
        match reply {
          case Done(text, leaked, cleaned, usage, finish) =>
            OnDoneCounters(cfg, Account(s2.(finish := finish), usage), w, text, leaked, cleaned);
          case Calls(text, calls, usage) =>
            OnCallsCounters(cfg, Account(s2, usage), w, text, calls);
          case Failed(e) =>
            OnErrorCounters(cfg, s2, e);
        }
    }
  }

  /** A trip adds at most one tool iteration, within the cap, and one that falls asleep adds just that. */
  predicate Iterates(cfg: Config, s: State, r: Trip) {
    && s.c.iteration <= r.s.c.iteration <= s.c.iteration + 1
    && (Sleeps(r) ==> r.s.c.iteration == s.c.iteration + 1)
    && (cfg.maxToolIterations.Some? && r.s.c.iteration > s.c.iteration ==>
          r.s.c.iteration <= cfg.maxToolIterations.value)
  }

  lemma ModelStepIterates(s: State, w: World)
    ensures ModelStep(s, w).0.c.iteration == s.c.iteration
  {
    hide Then, AskTrace, AskAtoms, Settle;
  }

  lemma OnCallsIterates(cfg: Config, s: State, w: World, text: string, calls: seq<CallId>)
    ensures Iterates(cfg, s, OnCalls(cfg, s, w, text, calls))
  {
    hide Collect, OnCalls, Chars, Tools, Push, Then, Reached;
    OnCallsIs(cfg, s, w, text, calls);
    CollectCounters(Dispatch(Replied(s, w.streaming, text, calls), w, calls), w, calls);
  }

  lemma PassIterates(cfg: Config, s: State, w: World)
    ensures Iterates(cfg, s, Pass(cfg, s, w))
  {
    hide Boundary, ModelStep, OnDone, OnCalls, OnError;
    BoundaryCounters(s, w);
    match Boundary(s, w) {
      case Halt(_) =>
      case Abandon(_) =>
      case Go(s1) =>
        ModelStepIterates(s1, w);
        var (s2, reply) := ModelStep(s1, w);
        match reply {
          case Done(text, leaked, cleaned, usage, finish) =>
            OnDoneCounters(cfg, Account(s2.(finish := finish), usage), w, text, leaked, cleaned);
            OnDoneAwake(cfg, Account(s2.(finish := finish), usage), w, text, leaked, cleaned);
          case Calls(text, calls, usage) =>
            OnCallsIterates(cfg, Account(s2, usage), w, text, calls);
          case Failed(e) =>
            OnErrorCounters(cfg, s2, e);
            OnErrorAwake(cfg, s2, e);
        }
    }
  }

  lemma NotHalted(s: State, w: World)
    requires !s.cancelled && !w.cancelBefore
    ensures !Boundary(s, w).Halt?
  {
    hide Drain, Install;
  }

  lemma LikeMeans(u: State, s: State)
    requires Like(u, s)
    ensures u.c == s.c && u.inbox.accepting == s.inbox.accepting && u.cancelled == s.cancelled
  {
  }

  lemma FinishLike(u: State, s: State, finish: Finish)
    requires Like(u, s)
    ensures Like(u.(finish := finish), s.(finish := finish))
  {
  }

  // ------------------------------------------------------------- whole runs

  /** Somewhere on its way the sleeper meets a trip that binds the other. */
  predicate Bound(cfg: Config, u: State, s: State, early: seq<Said>, script: seq<World>, legs: seq<Leg>)
    decreases |legs|, |script|
  {
    script != [] &&
    (Binds(cfg, u, s, script[0]) ||
     (var ru, rs := Pass(cfg, u, Told(script[0], early)), Pass(cfg, s, script[0]);
      if rs.Again? then Bound(cfg, ru.s, rs.s, [], script[1..], legs)
      else
        && Sleeps(rs) && legs != []
        && Bound(cfg, ru.s, Woken(rs.s, rs.outcome, script[0], legs[0]), legs[0].waiting, legs[0].script, legs[1..])))
  }

  lemma WokenAgrees(u: State, s: State, w: World, leg: Leg)
    requires Slept(u, s)
    ensures Agree(u, Woken(s, Failure(Suspended), w, leg), leg.waiting)
    ensures Woken(s, Failure(Suspended), w, leg).b == UNSPENT && !Woken(s, Failure(Suspended), w, leg).cancelled
  {
    hide Flush, Then;
    var s1 := SetAccepting(Arrive(s, w.typedLeaving), false);
    FlushKeeps(s1);
    assert [] + leg.waiting == leg.waiting;
  }

  lemma FlushKeeps(s: State)
    ensures Flush(s).checkpoint == s.checkpoint && Flush(s).goal == s.goal && Flush(s).c == s.c
  {
    hide Card, Then;
  }

  /**
   The run told in one piece takes the same ways with the same counters, trip by trip, as the run in segments,
   if and only if no budget binds.
   */
  lemma {:induction false} CoursesAgree(
    cfg: Config, u: State, s: State, early: seq<Said>, script: seq<World>, legs: seq<Leg>)
    requires Agree(u, s, early)
    ensures Course(cfg, u, Joined(cfg, s, early, script, legs), []) == Course(cfg, s, script, legs)
            <==> !Bound(cfg, u, s, early, script, legs)
    decreases |legs|, |script|
  {
    hide Pass, Binds, Agree, Woken, Slept, Told;
    if script != [] {
      var w := script[0];
      PassAgrees(cfg, u, s, w, early);
      var ru, rs := Pass(cfg, u, Told(w, early)), Pass(cfg, s, w);
      var rest := if rs.Again? then Joined(cfg, rs.s, [], script[1..], legs)
                  else if Sleeps(rs) && legs != [] then
                    Joined(cfg, Woken(rs.s, rs.outcome, w, legs[0]), legs[0].waiting, legs[0].script, legs[1..])
                  else [];
      var joined := Joined(cfg, s, early, script, legs);
      assert joined == [Told(w, early)] + rest && joined[0] == Told(w, early) && joined[1..] == rest;
      CourseSteps(cfg, u, joined, []);
      CourseSteps(cfg, s, script, legs);
      if Binds(cfg, u, s, w) {
        assert Course(cfg, u, joined, [])[0] != Course(cfg, s, script, legs)[0];
      } else if rs.Again? {
        CoursesAgree(cfg, ru.s, rs.s, [], script[1..], legs);
        SameTail(StepOf(rs), Course(cfg, ru.s, rest, []), Course(cfg, rs.s, script[1..], legs));
      } else if Sleeps(rs) && legs != [] {
        var woken := Woken(rs.s, rs.outcome, w, legs[0]);
        WokenAgrees(ru.s, rs.s, w, legs[0]);
        CoursesAgree(cfg, ru.s, woken, legs[0].waiting, legs[0].script, legs[1..]);
        SameTail(StepOf(rs), Course(cfg, ru.s, rest, []), Course(cfg, woken, legs[0].script, legs[1..]));
      }
    }
  }

  lemma CourseSteps(cfg: Config, s: State, script: seq<World>, legs: seq<Leg>)
    requires script != []
    ensures var r := Pass(cfg, s, script[0]);
            Course(cfg, s, script, legs) == [StepOf(r)] +
            if r.Again? then Course(cfg, r.s, script[1..], legs)
            else if Sleeps(r) && legs != [] then
              Course(cfg, Woken(r.s, r.outcome, script[0], legs[0]), legs[0].script, legs[1..])
            else []
  {
    hide Pass, Woken;
  }

  lemma SameTail(a: Step, x: seq<Step>, y: seq<Step>)
    ensures [a] + x == [a] + y <==> x == y
  {
    assert ([a] + x)[1..] == x && ([a] + y)[1..] == y;
  }

  function CountersAfter(c: Counters, course: seq<Step>): Counters {
    if course == [] then c else course[|course| - 1].c
  }

  lemma CountersTail(c: Counters, a: Step, rest: seq<Step>)
    ensures CountersAfter(c, [a] + rest) == CountersAfter(a.c, rest)
  {
    if rest != [] {
      assert ([a] + rest)[|rest|] == rest[|rest| - 1];
    }
  }

  /** The last counters of the course are the counters the run ends with. */
  lemma {:induction false} CourseEnds(cfg: Config, s: State, script: seq<World>, legs: seq<Leg>)
    ensures LogicalRun(cfg, s, script, legs).s.c == CountersAfter(s.c, Course(cfg, s, script, legs))
    decreases |legs|, |script|
  {
    hide Pass, Resumed, Epilogue, CountersAfter;
    if script == [] {
      NoSteps(s.c);
    } else {
      var r := Pass(cfg, s, script[0]);
      CourseSteps(cfg, s, script, legs);
      var rest := Course(cfg, s, script, legs)[1..];
      CountersTail(s.c, StepOf(r), rest);
      NoSteps(r.s.c);
      match r {
        case Again(s1, _) =>
          LogicalRunSteps(cfg, s, script, legs);
          CourseEnds(cfg, s1, script[1..], legs);
        case Leave(s1, outcome) =>
          EpilogueCounters(s1, outcome, script[0]);
          if outcome == Failure(Suspended) && legs != [] {
            var woken := Woken(s1, outcome, script[0], legs[0]);
            CourseEnds(cfg, woken, legs[0].script, legs[1..]);
            AsleepCounters(cfg, s, script[0]);
            WokenCounters(s1, script[0], legs[0]);
          }
        case Drop(_) =>
      }
    }
  }

  lemma NoSteps(c: Counters)
    ensures CountersAfter(c, []) == c
  {
  }

  lemma LogicalRunSteps(cfg: Config, s: State, script: seq<World>, legs: seq<Leg>)
    requires script != [] && Pass(cfg, s, script[0]).Again?
    ensures LogicalRun(cfg, s, script, legs) == LogicalRun(cfg, Pass(cfg, s, script[0]).s, script[1..], legs)
  {
    hide Pass, Resumed, Epilogue;
  }

  lemma EpilogueCounters(s: State, outcome: Outcome, w: World)
    ensures Epilogue(s, outcome, w).c == s.c && Epilogue(s, outcome, w).checkpoint == s.checkpoint
  {
    hide Flush, ContinueFor, Then;
    FlushKeeps(SetAccepting(Arrive(s, w.typedLeaving), false));
  }

  /** A run that falls asleep has put its own counters in the checkpoint. */
  lemma AsleepCounters(cfg: Config, s: State, w: World)
    ensures var r := Pass(cfg, s, w); Sleeps(r) ==> r.s.checkpoint == Some(r.s.c)
  {
    hide Boundary, ModelStep, OnDone, OnCalls, OnError, Account;
    if Boundary(s, w).Go? {
      var (s2, reply) := ModelStep(Boundary(s, w).s, w);
      match reply {
        case Done(text, leaked, cleaned, usage, finish) =>
          OnDoneAwake(cfg, Account(s2.(finish := finish), usage), w, text, leaked, cleaned);
        case Calls(text, calls, usage) =>
          OnCallsAsleep(cfg, Account(s2, usage), w, text, calls);
        case Failed(e) =>
          OnErrorAwake(cfg, s2, e);
      }
    }
  }

  lemma OnErrorAwake(cfg: Config, s: State, e: ClientError)
    ensures !Sleeps(OnError(cfg, s, e))
  {
    hide Install, EmergencyReset;
  }

  lemma OnDoneAwake(cfg: Config, s: State, w: World, text: string, leaked: bool, cleaned: string)
    ensures !Sleeps(OnDone(cfg, s, w, text, leaked, cleaned))
  {
    hide CloseTurn, Drain, StopHook, Recover;
    RecoverRounds(s, w.streaming, text, cleaned);
    forall s1: State, t: string ensures !Sleeps(StopHook(cfg, s1, w, t)) {
      StopHookAwake(cfg, s1, w, t);
    }
  }

  lemma StopHookAwake(cfg: Config, s: State, w: World, text: string)
    ensures !Sleeps(StopHook(cfg, s, w, text))
  {
    hide Flush, Persist, Conclude, Feedback;
  }

  lemma OnCallsAsleep(cfg: Config, s: State, w: World, text: string, calls: seq<CallId>)
    ensures var r := OnCalls(cfg, s, w, text, calls); Sleeps(r) ==> r.s.checkpoint == Some(r.s.c)
  {
    hide OnCalls, Collect, Dispatch, Replied, Then;
    OnCallsIs(cfg, s, w, text, calls);
  }

  lemma WokenCounters(s: State, w: World, leg: Leg)
    requires s.checkpoint == Some(s.c)
    ensures Woken(s, Failure(Suspended), w, leg).c == s.c
  {
    hide Epilogue;
    EpilogueCounters(s, Failure(Suspended), w);
  }

  lemma AgreesWithItself(s: State)
    requires s.inbox.accepting
    ensures Agree(s, s, [])
  {
    assert s.inbox.pending + [] == s.inbox.pending;
  }

  /** From a common start, a run in segments counts what the unbroken run counts, as long as no budget binds. */
  lemma SuspensionIsInvisible(cfg: Config, s: State, script: seq<World>, legs: seq<Leg>)
    requires s.inbox.accepting && !Bound(cfg, s, s, [], script, legs)
    ensures LogicalRun(cfg, s, script, legs).s.c == RunOver(cfg, s, Joined(cfg, s, [], script, legs)).s.c
    ensures Course(cfg, s, Joined(cfg, s, [], script, legs), []) == Course(cfg, s, script, legs)
  {
    hide LogicalRun, RunOver, Course, Joined, Bound, CountersAfter;
    AgreesWithItself(s);
    CoursesAgree(cfg, s, s, [], script, legs);
    CourseEnds(cfg, s, script, legs);
    CourseEnds(cfg, s, Joined(cfg, s, [], script, legs), []);
    NoLegs(cfg, s, Joined(cfg, s, [], script, legs));
  }

  lemma NoLegs(cfg: Config, s: State, script: seq<World>)
    ensures LogicalRun(cfg, s, script, []) == RunOver(cfg, s, script)
  {
    hide RunOver;
  }

  // ------------------------------------------------------------- scripts within budget

  /** How often a script could draw on each budget. */
  datatype Demand = Demand(leaks: nat, hooks: nat, resets: nat) {
    function Plus(d: Demand): Demand {
      Demand(leaks + d.leaks, hooks + d.hooks, resets + d.resets)
    }
  }

  function DemandOf(cfg: Config, w: World): Demand {
    var reply := Settle(w.attempts, 0).reply;
    Demand(if reply.Done? && reply.leaked then 1 else 0,
           if Injects(cfg, w) then 1 else 0,
           if reply.Failed? && reply.error.ContextTooLong() then 1 else 0)
  }

  function ScriptDemand(cfg: Config, script: seq<World>): Demand {
    if script == [] then Demand(0, 0, 0) else DemandOf(cfg, script[0]).Plus(ScriptDemand(cfg, script[1..]))
  }

  function LegsDemand(cfg: Config, legs: seq<Leg>): Demand {
    if legs == [] then Demand(0, 0, 0) else ScriptDemand(cfg, legs[0].script).Plus(LegsDemand(cfg, legs[1..]))
  }

  function TotalDemand(cfg: Config, script: seq<World>, legs: seq<Leg>): Demand {
    ScriptDemand(cfg, script).Plus(LegsDemand(cfg, legs))
  }

  /** No cancel comes in a trip after which the run falls asleep. */
  predicate SleepsWell(script: seq<World>) {
    forall i :: 0 <= i < |script| && script[i].suspend ==>
      !Settle(script[i].attempts, 0).cancelled && !script[i].cancelTools
  }

  predicate AllSleepWell(script: seq<World>, legs: seq<Leg>) {
    SleepsWell(script) && forall i :: 0 <= i < |legs| ==> SleepsWell(legs[i].script)
  }

  /** What has been used is no more than what was asked for. */
  predicate Spent(b: Budgets, b1: Budgets, d: Demand) {
    b1.leaks <= b.leaks + d.leaks && b1.hooks <= b.hooks + d.hooks && (b1.resetTried ==> b.resetTried || d.resets > 0)
  }

  lemma BoundaryBudgets(s: State, w: World)
    ensures Boundary(s, w).s.b == s.b
  {
    hide Drain, Compact, MaybeSetMarker;
    var s1 := Arrive(s, w.typedBefore).(cancelled := s.cancelled || w.cancelBefore);
    LikeItself(s1);
    DrainLike(s1, s1);
    LikeItself(Drain(s1));
    MarkerLike(Drain(s1), Drain(s1));
    LikeItself(MaybeSetMarker(Drain(s1)));
    CompactLike(MaybeSetMarker(Drain(s1)), MaybeSetMarker(Drain(s1)), w.compaction);
  }

  lemma ModelStepBudgets(s: State, w: World)
    ensures ModelStep(s, w).0.b == s.b && ModelStep(s, w).1 == Settle(w.attempts, 0).reply
    ensures ModelStep(s, w).0.cancelled == (s.cancelled || Settle(w.attempts, 0).cancelled)
  {
    hide Then, AskTrace, AskAtoms, Settle;
  }

  lemma JudgeBudgets(cfg: Config, s: State, w: World, text: string)
    ensures var b := Judge(cfg, s, w, text).s.b; b == s.b.(goals := b.goals)
  {
    hide Then, Flush, Push;
    LikeItself(s);
    FlushLike(s, s);
  }

  lemma StopHookBudgets(cfg: Config, s: State, w: World, text: string)
    ensures Spent(s.b, StopHook(cfg, s, w, text).s.b, Demand(0, if Injects(cfg, w) then 1 else 0, 0))
  {
    hide Then, Flush, Push, Judge;
    LikeItself(s);
    FlushLike(s, s);
    JudgeBudgets(cfg, s, w, text);
    JudgeBudgets(cfg, Do(Flush(s), Wrote(HookMark)), w, text);
  }

  lemma CloseTurnBudgets(s: State, w: World, text: string, cleaned: string)
    ensures CloseTurn(s, w, text, cleaned).b == s.b
  {
    hide Then, Flush, Push;
    var s1 := Do(Do(s.(seg := s.seg.(final := text)), TextDone(text)), TurnFinished(EndTurn));
    LikeItself(s1);
    FlushLike(s1, s1);
  }

  lemma OnDoneBudgets(cfg: Config, s: State, w: World, text: string, leaked: bool, cleaned: string)
    ensures Spent(s.b, OnDone(cfg, s, w, text, leaked, cleaned).s.b,
                  Demand(if leaked then 1 else 0, if Injects(cfg, w) then 1 else 0, 0))
  {
    hide CloseTurn, Drain, StopHook, Push, Chars, Then;
    var kept := if leaked then cleaned else text;
    var s1 := CloseTurn(s, w, text, kept);
    CloseTurnBudgets(s, w, text, kept);
    LikeItself(s1);
    DrainLike(s1, s1);
    StopHookBudgets(cfg, PushLate(Drain(s1), w.late), w, kept);
  }

  lemma CollectBudgets(s: State, w: World, calls: seq<CallId>)
    ensures Collect(s, w, calls).b == s.b && Collect(s, w, calls).cancelled == s.cancelled
  {
    hide Then, Flush, Push, Drain, Reached;
    var results := ToolResults(calls[..Reached(w, calls, s.cancelled)]);
    var s1 := Do(s.(entries := Push(s.entries, results), c := s.c.(offset := s.c.offset + |calls|)),
                 ToolFinished(s.c.toolStep));
    LikeItself(s1);
    FlushLike(s1, s1);
    var s2 := Arrive(FlushIfPending(s1), w.typedBeforeDrain);
    LikeItself(s2);
    DrainLike(s2, s2);
    DrainKeepsOpen(s2);
  }

  lemma OnCallsBudgets(cfg: Config, s: State, w: World, text: string, calls: seq<CallId>)
    ensures var r := OnCalls(cfg, s, w, text, calls);
            && r.s.b == s.b
            && (Sleeps(r) ==> w.suspend && r.s.cancelled == (s.cancelled || w.cancelTools))
  {
    hide Collect, OnCalls, Chars, Tools, Push, Then, Reached;
    OnCallsIs(cfg, s, w, text, calls);
    CollectBudgets(Dispatch(Replied(s, w.streaming, text, calls), w, calls), w, calls);
  }

  lemma OnErrorBudgets(cfg: Config, s: State, e: ClientError)
    ensures Spent(s.b, OnError(cfg, s, e).s.b, Demand(0, 0, if e.ContextTooLong() then 1 else 0))
  {
    hide Then, Install, EmergencyReset;
    var s1 := s.(b := s.b.(resetTried := true));
    LikeItself(s1);
    InstallLike(s1, s1, EmergencyReset(s.entries, cfg.keepRecentTurns), EmergencyReset(s.entries, cfg.keepRecentTurns));
  }

  lemma PassSpends(cfg: Config, s: State, w: World)
    ensures var r := Pass(cfg, s, w);
            && Spent(s.b, r.s.b, DemandOf(cfg, w))
            && (Sleeps(r) ==>
                  w.suspend && (r.s.cancelled ==> Settle(w.attempts, 0).cancelled || w.cancelTools))
  {
    hide Boundary, ModelStep, OnDone, OnCalls, OnError, Settle, Injects;
    BoundaryBudgets(s, w);
    match Boundary(s, w) {
      case Halt(_) =>
      case Abandon(_) =>
      case Go(s1) =>
        GoesUncancelled(s, w);
        ModelStepBudgets(s1, w);
        var (s2, reply) := ModelStep(s1, w);
        match reply {
          case Done(text, leaked, cleaned, usage, finish) =>
            OnDoneBudgets(cfg, Account(s2.(finish := finish), usage), w, text, leaked, cleaned);
            OnDoneAwake(cfg, Account(s2.(finish := finish), usage), w, text, leaked, cleaned);
          case Calls(text, calls, usage) =>
            OnCallsBudgets(cfg, Account(s2, usage), w, text, calls);
          case Failed(e) =>
            OnErrorBudgets(cfg, s2, e);
            OnErrorAwake(cfg, s2, e);
        }
    }
  }

  lemma GoesUncancelled(s: State, w: World)
    ensures Boundary(s, w).Go? ==> !Boundary(s, w).s.cancelled
  {
    hide Drain, Compact, MaybeSetMarker;
    var s1 := Arrive(s, w.typedBefore).(cancelled := s.cancelled || w.cancelBefore);
    LikeItself(s1);
    DrainKeepsOpen(s1);
    LikeItself(Drain(s1));
    MarkerLike(Drain(s1), Drain(s1));
    MarkerUncancelled(Drain(s1));
    LikeItself(MaybeSetMarker(Drain(s1)));
    CompactUncancelled(MaybeSetMarker(Drain(s1)), w.compaction);
  }

  lemma MarkerUncancelled(s: State)
    ensures MaybeSetMarker(s).cancelled == s.cancelled
  {
  }

  lemma CompactUncancelled(s: State, compaction: Compaction)
    ensures Compact(s, compaction).s.cancelled == s.cancelled
  {
    hide Flush;
    FlushUncancelled(s.(entries := SUMMARY));
    if compaction.Replaced? {
      FlushUncancelled(s.(entries := compaction.entries));
    }
  }

  lemma FlushUncancelled(s: State)
    ensures Flush(s).cancelled == s.cancelled
  {
    hide Card;
  }

  /** The budgets used so far and those still asked for stay within what one unbroken run has. */
  predicate Affordable(b: Budgets, d: Demand) {
    && b.leaks + d.leaks <= MAX_TOOL_XML_LEAK_RECOVERIES && b.hooks + d.hooks <= MAX_STOP_INJECTIONS
    && (if b.resetTried then 1 else 0) + d.resets <= 1
  }

  lemma AffordableNeverBinds(cfg: Config, u: State, s: State, w: World, rest: Demand)
    requires Affordable(u.b, DemandOf(cfg, w).Plus(rest)) && u.cancelled == s.cancelled
    ensures !Binds(cfg, u, s, w)
  {
    hide Settle;
  }

  lemma StaysAffordable(b: Budgets, b1: Budgets, d: Demand, rest: Demand)
    requires Affordable(b, d.Plus(rest)) && Spent(b, b1, d)
    ensures Affordable(b1, rest)
  {
  }

  lemma ToldDemand(cfg: Config, w: World, early: seq<Said>)
    ensures DemandOf(cfg, Told(w, early)) == DemandOf(cfg, w)
  {
    hide Settle;
  }

  lemma {:induction false} NeverBound(
    cfg: Config, u: State, s: State, early: seq<Said>, script: seq<World>, legs: seq<Leg>)
    requires Agree(u, s, early) && u.cancelled == s.cancelled
    requires Affordable(u.b, TotalDemand(cfg, script, legs)) && AllSleepWell(script, legs)
    ensures !Bound(cfg, u, s, early, script, legs)
    decreases |legs|, |script|
  {
    hide Pass, Binds, Agree, Woken, Slept, Told, DemandOf, Settle, Affordable, Spent, TotalDemand, AllSleepWell;
    if script != [] {
      var w := script[0];
      SleepsWellOn(script, legs);
      var rest := TotalDemand(cfg, script[1..], legs);
      DemandSplits(cfg, script, legs);
      AffordableNeverBinds(cfg, u, s, w, rest);
      PassAgrees(cfg, u, s, w, early);
      PassSpends(cfg, u, Told(w, early));
      ToldDemand(cfg, w, early);
      var ru, rs := Pass(cfg, u, Told(w, early)), Pass(cfg, s, w);
      StaysAffordable(u.b, ru.s.b, DemandOf(cfg, w), rest);
      if rs.Again? {
        NeverBound(cfg, ru.s, rs.s, [], script[1..], legs);
      } else if Sleeps(rs) && legs != [] {
        PassSpends(cfg, s, w);
        SleptMeans(ru.s, rs.s);
        WokenAgrees(ru.s, rs.s, w, legs[0]);
        LegAffordable(cfg, ru.s.b, script[1..], legs);
        NeverBound(cfg, ru.s, Woken(rs.s, rs.outcome, w, legs[0]), legs[0].waiting, legs[0].script, legs[1..]);
      }
    }
  }

  lemma DemandSplits(cfg: Config, script: seq<World>, legs: seq<Leg>)
    requires script != []
    ensures TotalDemand(cfg, script, legs) == DemandOf(cfg, script[0]).Plus(TotalDemand(cfg, script[1..], legs))
  {
    hide DemandOf, LegsDemand;
  }

  lemma SleepsWellOn(script: seq<World>, legs: seq<Leg>)
    requires script != [] && AllSleepWell(script, legs)
    ensures AllSleepWell(script[1..], legs)
    ensures legs != [] ==> AllSleepWell(legs[0].script, legs[1..])
    ensures script[0].suspend ==> !Settle(script[0].attempts, 0).cancelled && !script[0].cancelTools
  {
    hide Settle;
  }

  lemma LegAffordable(cfg: Config, b: Budgets, script: seq<World>, legs: seq<Leg>)
    requires legs != [] && Affordable(b, TotalDemand(cfg, script, legs))
    ensures Affordable(b, TotalDemand(cfg, legs[0].script, legs[1..]))
  {
  }

  lemma SleptMeans(u: State, s: State)
    requires Slept(u, s)
    ensures u.cancelled == s.cancelled
  {
  }

  /**
   Said of scripts alone: with at most two leaked answers, three injections and one context-too-long failure over all
   segments, and no cancel in a trip that falls asleep, suspensions are invisible.
   */
  lemma SuspensionWithinBudget(cfg: Config, s: State, script: seq<World>, legs: seq<Leg>)
    requires s.inbox.accepting && s.b == UNSPENT && AllSleepWell(script, legs)
    requires var d := TotalDemand(cfg, script, legs); d.leaks <= 2 && d.hooks <= 3 && d.resets <= 1
    ensures LogicalRun(cfg, s, script, legs).s.c == RunOver(cfg, s, Joined(cfg, s, [], script, legs)).s.c
    ensures Course(cfg, s, Joined(cfg, s, [], script, legs), []) == Course(cfg, s, script, legs)
  {
    hide LogicalRun, RunOver, Course, Joined, Bound, TotalDemand, AllSleepWell;
    AgreesWithItself(s);
    NeverBound(cfg, s, s, [], script, legs);
    SuspensionIsInvisible(cfg, s, script, legs);
  }

  // ------------------------------------------------------------- a budget that binds

  const LEAKS := SessionLog.Plain(Done("x", true, "", NO_USAGE, Stop))
  const SLEEPS := SessionLog.Plain(Calls("", [], NO_USAGE)).(suspend := true)

  /** Nothing typed, nothing cancelled, no goal. */
  predicate Idle(s: State) {
    !s.cancelled && s.inbox.accepting && s.inbox.pending == [] && s.goal.None?
  }

  lemma LeakTrip(s: State)
    requires Idle(s) && s.b.leaks < MAX_TOOL_XML_LEAK_RECOVERIES
    ensures var r := Pass(SessionLog.BARE, s, LEAKS);
            r.Again? && Idle(r.s) && r.s.b == s.b.(leaks := s.b.leaks + 1)
  {
    hide AskTrace, AskAtoms, Settle, Chars, Push;
    SessionLog.PlainSettles(Done("x", true, "", NO_USAGE, Stop));
    var s1 := Boundary(s, LEAKS).s;
    var (s2, reply) := ModelStep(s1, LEAKS);
    OnDoneRecovers(SessionLog.BARE, Account(s2.(finish := Stop), NO_USAGE), LEAKS, "x", "");
  }

  lemma SleepTrip(s: State)
    requires Idle(s)
    ensures var ru, rs := Pass(SessionLog.BARE, s, Told(SLEEPS, [])), Pass(SessionLog.BARE, s, SLEEPS);
            ru.Again? && Idle(ru.s) && ru.s.b == s.b && Sleeps(rs)
  {
    hide AskTrace, AskAtoms, Settle, Chars, Push, Tools;
    SessionLog.PlainSettles(Calls("", [], NO_USAGE));
    var s1 := Boundary(s, SLEEPS).s;
    var (s2, reply) := ModelStep(s1, SLEEPS);
  }

  lemma WokenIsUnspent(s: State, leg: Leg)
    requires s.checkpoint.Some?
    ensures var s1 := Woken(s, Failure(Suspended), SLEEPS, leg); s1.b == UNSPENT && !s1.cancelled
  {
    hide Flush;
    FlushKeeps(SetAccepting(Arrive(s, SLEEPS.typedLeaving), false));
  }

  /** Two leaks, a nap and a third leak: awake all along, the run would have closed the answer. */
  lemma SleepRestoresBudgets(s: State)
    requires Idle(s) && s.b == UNSPENT
    ensures var script, legs := [LEAKS, LEAKS, SLEEPS], [Leg([], [], [LEAKS])];
            Course(SessionLog.BARE, s, Joined(SessionLog.BARE, s, [], script, legs), [])
            != Course(SessionLog.BARE, s, script, legs)
  {
    hide Pass, Settle, Woken, Course, Joined;
    var cfg := SessionLog.BARE;
    var legs := [Leg([], [], [LEAKS])];
    LeakTrip(s);
    var s1 := Pass(cfg, s, LEAKS).s;
    LeakTrip(s1);
    var s2 := Pass(cfg, s1, LEAKS).s;
    SleepTrip(s2);
    var ru, rs := Pass(cfg, s2, Told(SLEEPS, [])), Pass(cfg, s2, SLEEPS);
    AsleepCounters(cfg, s2, SLEEPS);
    WokenIsUnspent(rs.s, legs[0]);
    SessionLog.PlainSettles(Done("x", true, "", NO_USAGE, Stop));
    assert Told(LEAKS, []) == LEAKS;
    assert legs[0].script == [LEAKS] && legs[1..] == [];
    assert Bound(cfg, ru.s, Woken(rs.s, rs.outcome, SLEEPS, legs[0]), [], [LEAKS], []);
    var script := [LEAKS, LEAKS, SLEEPS];
    assert script[1..] == [LEAKS, SLEEPS] && [LEAKS, SLEEPS][1..] == [SLEEPS];
    assert Bound(cfg, s2, s2, [], [SLEEPS], legs);
    assert Bound(cfg, s1, s1, [], [LEAKS, SLEEPS], legs);
    assert Bound(cfg, s, s, [], script, legs);
    AgreesWithItself(s);
    CoursesAgree(cfg, s, s, [], script, legs);
  }
}
