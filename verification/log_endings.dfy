/**
 What the session log of a run keeps however the run ends: always the user messages, and, where nothing was cancelled,
 the output before each of them.
 */
module LogEndings {
  import opened Transcript
  import opened Options
  import opened Retry
  import opened AgentLoop
  import opened SessionLog

  function SaidOf(closed: seq<(seq<Atom>, Said)>): seq<Said> {
    if closed == [] then [] else SaidOf(closed[..|closed| - 1]) + [closed[|closed| - 1].1]
  }

  /** The user messages alone. */
  function UsersIn(r: Reading): seq<Said> {
    SaidOf(r.closed)
  }

  /** Log and conversation have the same user messages, in the same order. */
  predicate SameUsers(base: Reading, s: State) {
    UsersIn(Logged(base, s.trace)) == UsersIn(Spoken(s.entries))
  }

  /** The trip does not replace the conversation. */
  predicate KeepsContext(w: World) {
    var reply := Settle(w.attempts, 0).reply;
    && !w.compaction.Summarised? && !w.compaction.Replaced?
    && (reply.Failed? ==> !reply.error.ContextTooLong())
  }

  lemma UsersAddU(r: Reading, said: Said)
    ensures UsersIn(AddU(r, said)) == UsersIn(r) + [said]
  {
    assert AddU(r, said).closed[..|r.closed|] == r.closed;
  }

  lemma {:induction false} UsersAddUs(r: Reading, said: seq<Said>)
    ensures UsersIn(AddUs(r, said)) == UsersIn(r) + said
    decreases |said|
  {
    hide UsersIn;
    if said == [] {
      assert UsersIn(r) + said == UsersIn(r);
    } else {
      UsersAddU(r, said[0]);
      UsersAddUs(AddU(r, said[0]), said[1..]);
      assert UsersIn(r) + said == UsersIn(r) + [said[0]] + said[1..];
    }
  }

  // ------------------------------------------------------------- user messages

  lemma DrainSame(base: Reading, s: State)
    requires SameUsers(base, s)
    ensures SameUsers(base, Drain(s))
  {
    hide Logged, Spoken, Drain, AddUs, UsersIn;
    DrainLogged(base, s);
    UsersAddUs(Logged(base, s.trace), s.inbox.pending);
    UsersAddUs(Spoken(s.entries), s.inbox.pending);
  }

  lemma FlushSame(base: Reading, s: State)
    requires SameUsers(base, s)
    ensures SameUsers(base, Flush(s))
  {
    hide Logged, Spoken, Flush, Card;
    FlushLogged(base, s);
  }

  lemma FeedbackSame(base: Reading, s: State, said: Said)
    requires SameUsers(base, s)
    ensures SameUsers(base, Feedback(s, said))
  {
    hide Logged, Spoken, Feedback, UsersIn;
    FeedbackLogged(base, s, said);
    UsersAddU(Logged(base, s.trace), said);
    UsersAddU(Spoken(s.entries), said);
  }

  /** An act that is no user message. */
  lemma ActSame(base: Reading, s: State, a: Act)
    requires SameUsers(base, s) && !(a.Wrote? && (a.line.DrainedUser? || a.line.FeedbackUser?))
    ensures SameUsers(base, Do(s, a))
  {
    hide Logged, Spoken;
    Law();
  }

  /** An entry that is no user message. */
  lemma EntrySame(base: Reading, s: State, e: Entry)
    requires SameUsers(base, s) && !e.User?
    ensures SameUsers(base, s.(entries := Push(s.entries, e)))
  {
    hide Logged, Spoken, Push;
    Heard(s.entries, e);
  }

  lemma BoundarySame(base: Reading, s: State, w: World)
    requires SameUsers(base, s) && !w.compaction.Summarised? && !w.compaction.Replaced?
    ensures SameUsers(base, Boundary(s, w).s)
  {
    hide Logged, Spoken, Drain;
    Law();
    DrainSame(base, Arrive(s, w.typedBefore).(cancelled := s.cancelled || w.cancelBefore));
  }

  lemma TypingKeeps(s: State, typed: seq<Said>, edit: GoalEdit)
    ensures EditGoal(Arrive(s, typed), edit).trace == s.trace && EditGoal(Arrive(s, typed), edit).entries == s.entries
  {
  }

  lemma ModelStepSame(base: Reading, s: State, w: World)
    requires SameUsers(base, s)
    ensures SameUsers(base, ModelStep(s, w).0) && ModelStep(s, w).1 == Settle(w.attempts, 0).reply
  {
    hide Logged, Spoken, AskTrace, AskAtoms, Settle, UsersIn, EditGoal, Arrive;
    Law();
    var s1 := StartTurn(s);
    AskLogged(base, s1.trace, s1.entries, w.attempts, 0);
    var s2 := TryModel(s1, w.streaming, w.attempts).0;
    var s3 := Do(s2, ModelFinished(s2.c.modelStep));
    TypingKeeps(s3, w.typedDuringModel, w.goalEdit);
  }

  lemma RecoverSame(base: Reading, s: State, streaming: bool, text: string, cleaned: string)
    requires SameUsers(base, s)
    ensures SameUsers(base, Recover(s, streaming, text, cleaned).s)
  {
    hide Logged, Spoken, Chars, Push, Feedback, UsersIn;
    var s1 := if streaming then s else Show(s, Chars(text));
    EntrySame(base, s1, Assistant(cleaned, []));
    FeedbackSame(base, s1.(b := s.b.(leaks := s.b.leaks + 1), entries := Push(s.entries, Assistant(cleaned, []))),
                 FormatNotice);
  }

  lemma CloseTurnSame(base: Reading, s: State, w: World, text: string, cleaned: string)
    requires SameUsers(base, s)
    ensures SameUsers(base, CloseTurn(s, w, text, cleaned))
  {
    hide Logged, Spoken, Flush, Push, UsersIn, Do;
    var s1 := s.(seg := s.seg.(final := text));
    ActSame(base, s1, TextDone(text));
    ActSame(base, Do(s1, TextDone(text)), TurnFinished(EndTurn));
    var s2 := Do(Do(s1, TextDone(text)), TurnFinished(EndTurn));
    FlushSame(base, s2);
    var s3 := Arrive(FlushIfPending(s2), w.typedWhileClosing);
    DoKeeps(s1, TextDone(text));
    DoKeeps(Do(s1, TextDone(text)), TurnFinished(EndTurn));
    FlushLogged(base, s2);
    assert s3.entries == s.entries;
    EntrySame(base, s3, Assistant(cleaned, []));
  }

  lemma DoKeeps(s: State, a: Act)
    ensures Do(s, a).entries == s.entries
  {
  }

  lemma PersistSame(base: Reading, s: State, condition: string, reason: string)
    requires SameUsers(base, s)
    ensures SameUsers(base, Persist(s, condition, reason))
  {
    hide Logged, Spoken, Feedback, UsersIn;
    var n := s.b.goals + 1;
    var s1 := s.(b := s.b.(goals := n), goal := Some(Goal(condition, n, false)));
    ActSame(base, s1, Wrote(GoalMark(Progress, n)));
    ActSame(base, Do(s1, Wrote(GoalMark(Progress, n))), GoalProgressed(n));
    FeedbackSame(base, Do(Do(s1, Wrote(GoalMark(Progress, n))), GoalProgressed(n)), GoalFeedback(reason));
  }

  lemma ConcludeSame(base: Reading, s: State, kind: MarkKind, a: Act)
    requires SameUsers(base, s) && (a.GoalAchieved? || a.GoalImpossible?)
    ensures SameUsers(base, Conclude(s, kind, a))
  {
    hide Logged, Spoken, UsersIn;
    var s1 := s.(goal := None);
    ActSame(base, s1, Wrote(GoalMark(kind, s.b.goals)));
    ActSame(base, Do(s1, Wrote(GoalMark(kind, s.b.goals))), a);
  }

  lemma JudgeSame(base: Reading, cfg: Config, s: State, w: World, text: string)
    requires SameUsers(base, s)
    ensures SameUsers(base, Judge(cfg, s, w, text).s)
  {
    hide Logged, Spoken, Flush, Persist, Conclude, UsersIn;
    FlushSame(base, s);
    if s.goal.Some? && cfg.hasJudge {
      var s1 := Flush(s).(cancelled := s.cancelled || w.cancelJudge);
      match w.verdict {
        case IsAchieved => ConcludeSame(base, s1, Achieved, GoalAchieved);
        case IsImpossible => ConcludeSame(base, s1, Impossible, GoalImpossible);
        case NotYet(reason) => PersistSame(base, s1, s.goal.value.condition, reason);
      }
    }
  }

  lemma StopHookSame(base: Reading, cfg: Config, s: State, w: World, text: string)
    requires SameUsers(base, s)
    ensures SameUsers(base, StopHook(cfg, s, w, text).s)
  {
    hide Logged, Spoken, Flush, Feedback, Judge, UsersIn;
    if cfg.hasHooks && s.b.hooks < MAX_STOP_INJECTIONS {
      FlushSame(base, s);
      ActSame(base, Flush(s), Wrote(HookMark));
      var s1 := Do(Flush(s), Wrote(HookMark));
      if w.hook.InjectFollowup? && w.hook.reminder != "" {
        FeedbackSame(base, s1.(b := s.b.(hooks := s.b.hooks + 1)), HookFeedback(w.hook.reminder));
      } else {
        JudgeSame(base, cfg, s1, w, text);
      }
    } else {
      JudgeSame(base, cfg, s, w, text);
    }
  }

  lemma OnDoneSame(base: Reading, cfg: Config, s: State, w: World, text: string, leaked: bool, cleaned: string)
    requires SameUsers(base, s)
    ensures SameUsers(base, OnDone(cfg, s, w, text, leaked, cleaned).s)
  {
    hide Logged, Spoken, Recover, CloseTurn, Drain, StopHook, UsersIn;
    if leaked && s.b.leaks < MAX_TOOL_XML_LEAK_RECOVERIES {
      RecoverSame(base, s, w.streaming, text, cleaned);
    } else {
      var kept := if leaked then cleaned else text;
      CloseTurnSame(base, s, w, text, kept);
      DrainSame(base, CloseTurn(s, w, text, kept));
      StopHookSame(base, cfg, PushLate(Drain(CloseTurn(s, w, text, kept)), w.late), w, kept);
    }
  }

  lemma DispatchSame(base: Reading, s: State, w: World, calls: seq<CallId>)
    requires SameUsers(base, s)
    ensures SameUsers(base, Dispatch(s, w, calls))
  {
    hide Logged, Spoken, Tools, Reached, UsersIn;
    var i := s.c.toolStep + 1;
    var s1 := s.(c := s.c.(iteration := s.c.iteration + 1, toolStep := i));
    ActSame(base, s1, ToolStarted(i));
    ActSame(base, Do(s1, ToolStarted(i)), Dispatched(s.c.offset, |calls|));
  }

  lemma CollectSame(base: Reading, s: State, w: World, calls: seq<CallId>)
    requires SameUsers(base, s)
    ensures SameUsers(base, Collect(s, w, calls))
  {
    hide Logged, Spoken, Flush, Drain, Push, Reached, UsersIn, Do;
    var results := ToolResults(calls[..Reached(w, calls, s.cancelled)]);
    EntrySame(base, s, results);
    var s1 := s.(entries := Push(s.entries, results), c := s.c.(offset := s.c.offset + |calls|));
    ActSame(base, s1, ToolFinished(s.c.toolStep));
    var s2 := Do(s1, ToolFinished(s.c.toolStep));
    FlushSame(base, s2);
    DrainSame(base, Arrive(FlushIfPending(s2), w.typedBeforeDrain));
  }

  lemma AfterCallsSame(base: Reading, s: State, w: World, calls: seq<CallId>)
    requires SameUsers(base, s)
    ensures SameUsers(base, AfterCalls(s, w, calls).s)
  {
    hide Logged, Spoken, Collect, UsersIn;
    Law();
    CollectSame(base, s, w, calls);
  }

  lemma OnCallsSame(base: Reading, cfg: Config, s: State, w: World, text: string, calls: seq<CallId>)
    requires SameUsers(base, s)
    ensures SameUsers(base, OnCalls(cfg, s, w, text, calls).s)
  {
    hide Logged, Spoken, Chars, Push, Dispatch, AfterCalls, UsersIn, Do;
    var s1 := if w.streaming then s else Show(s, Chars(text));
    EntrySame(base, s1, Assistant(text, calls));
    var s2 := s1.(entries := Push(s.entries, Assistant(text, calls)));
    ActSame(base, s2, TurnFinished(MaxIterations));
    DispatchSame(base, s2, w, calls);
    AfterCallsSame(base, Dispatch(s2, w, calls), w, calls);
  }

  lemma PassSame(base: Reading, cfg: Config, s: State, w: World)
    requires SameUsers(base, s) && KeepsContext(w)
    ensures SameUsers(base, Pass(cfg, s, w).s)
  {
    hide Logged, Spoken, UsersIn, Boundary, ModelStep, OnDone, OnCalls, OnError, Settle, Do;
    BoundarySame(base, s, w);
    match Boundary(s, w) {
      case Halt(_) =>
      case Abandon(_) =>
      case Go(s1) =>
        ModelStepSame(base, s1, w);
        var (s2, reply) := ModelStep(s1, w);
        match reply {
          case Done(text, leaked, cleaned, usage, finish) =>
            ActSame(base, s2.(finish := finish), Used(usage));
            OnDoneSame(base, cfg, Account(s2.(finish := finish), usage), w, text, leaked, cleaned);
          case Calls(text, calls, usage) =>
            ActSame(base, s2, Used(usage));
            OnCallsSame(base, cfg, Account(s2, usage), w, text, calls);
          case Failed(e) =>
            ErrorLeaves(cfg, s2, e);
            ActSame(base, s2, TurnFinished(TurnFailed));
        }
    }
  }

  lemma ErrorLeaves(cfg: Config, s: State, e: ClientError)
    requires !e.ContextTooLong()
    ensures OnError(cfg, s, e) == Leave(Do(s, TurnFinished(TurnFailed)), Failure(e))
  {
  }

  lemma EpilogueSame(base: Reading, s: State, outcome: Outcome, w: World)
    requires SameUsers(base, s)
    ensures SameUsers(base, Epilogue(s, outcome, w))
  {
    hide Logged, Spoken, Card, Epilogue;
    EpilogueLogged(base, s, outcome, w);
  }

  lemma {:induction false} RunSame(base: Reading, cfg: Config, s: State, script: seq<World>)
    requires SameUsers(base, s) && forall i :: 0 <= i < |script| ==> KeepsContext(script[i])
    ensures SameUsers(base, RunOver(cfg, s, script).s)
    decreases |script|
  {
    hide Pass, Epilogue, SameUsers, KeepsContext;
    if script != [] {
      PassSame(base, cfg, s, script[0]);
      match Pass(cfg, s, script[0]) {
        case Again(s1, _) => RunSame(base, cfg, s1, script[1..]);
        case Leave(s1, outcome) => EpilogueSame(base, s1, outcome, script[0]);
        case Drop(_) =>
      }
    }
  }

  lemma FreshSame(entries: seq<Entry>, waiting: seq<Said>, goal: Option<Goal>, left: Option<ContinueKind>)
    ensures SameUsers(Spoken(entries), Fresh(entries, waiting, goal, left))
  {
    hide Spoken, Logged, UsersIn;
    Law();
    assert [RunStarted] == Then([], RunStarted);
    LoggedNothing(Spoken(entries));
  }

  /** However a run ends, and while it goes on: if it keeps its conversation, the log has all its user messages. */
  lemma UsersAlwaysLogged(
    cfg: Config, entries: seq<Entry>, waiting: seq<Said>, goal: Option<Goal>, left: Option<ContinueKind>,
    script: seq<World>)
    requires forall i :: 0 <= i < |script| ==> KeepsContext(script[i])
    ensures var r := RunOver(cfg, Fresh(entries, waiting, goal, left), script);
            UsersIn(Logged(Spoken(entries), r.s.trace)) == UsersIn(Spoken(r.s.entries))
  {
    hide RunOver, Fresh, Spoken, Logged, KeepsContext, UsersIn;
    FreshSame(entries, waiting, goal, left);
    RunSame(Spoken(entries), cfg, Fresh(entries, waiting, goal, left), script);
  }

  // ------------------------------------------------------------- failures

  /** Before each user message the log has what the conversation has. */
  predicate SameClosed(base: Reading, s: State) {
    Logged(base, s.trace).closed == Spoken(s.entries).closed
  }

  lemma DispatchQuiet(base: Reading, s: State, w: World, calls: seq<CallId>)
    ensures Logged(base, Dispatch(s, w, calls).trace) == Logged(base, s.trace)
    ensures Dispatch(s, w, calls).entries == s.entries
  {
    hide Logged, Tools, Reached;
    Law();
  }

  lemma OnCallsFailing(base: Reading, cfg: Config, s: State, w: World, text: string, calls: seq<CallId>)
    requires SameClosed(base, s)
    ensures var r := OnCalls(cfg, s, w, text, calls);
            r.Leave? && r.outcome != Failure(Suspended) ==> SameClosed(base, r.s)
  {
    hide Logged, Spoken, Chars, Tools, Push, Dispatch, Collect;
    Law();
    Heard(s.entries, Assistant(text, calls));
    var s1 := if w.streaming then s else Show(s, Chars(text));
    DispatchQuiet(base, s1.(entries := Push(s.entries, Assistant(text, calls))), w, calls);
  }

  lemma AlignedClosed(base: Reading, s: State)
    requires PagesOf(base, s).Aligned()
    ensures SameClosed(base, s)
  {
    hide Logged, Spoken, Card;
  }

  lemma HandedClosed(p: Pages, clean: bool)
    requires Stands(p, clean, true)
    ensures p.logged.closed == p.said.closed
  {
  }

  /** A trip that is in step and leaves the loop uncancelled drains nothing after its reply has gone wrong. */
  lemma PassLeaving(base: Reading, cfg: Config, s: State, w: World)
    requires Level(base, s, true) && Calm(w) && InStep(s, w)
    ensures var r := Pass(cfg, s, w); r.Leave? && !r.s.cancelled ==> SameClosed(base, r.s)
  {
    hide Logged, Spoken, Stands, Boundary, ModelStep, OnDone, OnCalls, OnError, Account, Card, Chars, Tools, TextIn,
      Hand, AskAtoms, Settle, EndsWith, SameClosed, PagesOf;
    BoundaryPages(base, s, w);
    match Boundary(s, w) {
      case Halt(_) =>
      case Abandon(_) =>
      case Go(s1) =>
        NotHalted(s, w);
        var top := s.inbox.pending + w.typedBefore;
        var clean, atoms := s.seg.final == "", s.seg.atoms;
        var p := PagesOf(base, s);
        LevelStands(base, s);
        HandStands(p, clean, true, top);
        StandsClean(p, clean, true);
        CardAtTop(s.seg);
        PagesCard(base, s);
        HandCard(p, top);
        var q := Hand(p, top);
        PagesParts(base, s1);
        HandedClosed(q, clean);
        ModelStepPages(base, s1, w);
        AskAtomsSilent(w.attempts, 0);
        assert [] + w.typedDuringModel == w.typedDuringModel && atoms + [] == atoms;
        var (s2, reply) := ModelStep(s1, w);
        StreamedReply(w.attempts[Settle(w.attempts, 0).calls - 1]);
        match reply {
          case Done(text, leaked, cleaned, usage, finish) =>
            var s3 := Account(s2.(finish := finish), usage);
            AccountPages(base, s2.(finish := finish), usage);
            OnDoneLevel(base, cfg, s3, w, text, cleaned, q, atoms, clean, true);
            var r := OnDone(cfg, s3, w, text, false, cleaned);
            if r.Leave? {
              AlignedClosed(base, r.s);
            }
          case Calls(text, calls, usage) =>
            var s3 := Account(s2, usage);
            AccountPages(base, s2, usage);
            OnCallsLevel(base, cfg, s3, w, text, calls, q, atoms, clean, true);
            ClosedHere(base, q, s3);
            OnCallsFailing(base, cfg, s3, w, text, calls);
            var r := OnCalls(cfg, s3, w, text, calls);
            if r.Leave? && r.outcome == Failure(Suspended) && !r.s.cancelled {
              AlignedClosed(base, r.s);
            }
          case Failed(e) =>
            ErrorLeaves(cfg, s2, e);
            ClosedHere(base, q, s2);
            ClosedAfter(base, s2, TurnFinished(TurnFailed));
        }
    }
  }

  lemma LevelStands(base: Reading, s: State)
    requires Level(base, s, true) && !s.cancelled
    ensures Stands(PagesOf(base, s), s.seg.final == "", true)
  {
    hide Stands;
  }

  lemma PagesParts(base: Reading, s: State)
    ensures PagesOf(base, s).logged == Logged(base, s.trace) && PagesOf(base, s).said == Spoken(s.entries)
  {
  }

  lemma PagesCard(base: Reading, s: State)
    ensures PagesOf(base, s).card == Card(s.seg)
  {
  }

  lemma ClosedHere(base: Reading, q: Pages, s: State)
    requires q.logged.closed == q.said.closed && q.logged == Logged(base, s.trace) && q.said == Spoken(s.entries)
    ensures SameClosed(base, s)
  {
  }

  lemma ClosedAfter(base: Reading, s: State, a: Act)
    requires SameClosed(base, s) && !a.Wrote?
    ensures SameClosed(base, Do(s, a))
  {
    hide Logged, Spoken;
    Law();
  }

  lemma EpilogueClosed(base: Reading, s: State, outcome: Outcome, w: World)
    requires SameClosed(base, s)
    ensures SameClosed(base, Epilogue(s, outcome, w)) && Epilogue(s, outcome, w).cancelled == s.cancelled
  {
    hide Logged, Spoken, Card, Epilogue;
    EpilogueLogged(base, s, outcome, w);
  }

  lemma EpilogueCancelled(base: Reading, s: State, outcome: Outcome, w: World)
    ensures Epilogue(s, outcome, w).cancelled == s.cancelled
  {
    hide Epilogue, Logged, Card;
    EpilogueLogged(base, s, outcome, w);
  }

  lemma {:induction false} RunLeaving(base: Reading, cfg: Config, s: State, script: seq<World>)
    requires Level(base, s, true) && AllCalm(script) && AllInStep(cfg, s, script)
    ensures var r := RunOver(cfg, s, script); r.Ended? && !r.s.cancelled ==> SameClosed(base, r.s)
    decreases |script|
  {
    hide Pass, Epilogue, Level, InStep, Calm, SameClosed;
    if script != [] {
      PassTold(base, cfg, s, script[0], true);
      PassLeaving(base, cfg, s, script[0]);
      match Pass(cfg, s, script[0]) {
        case Again(s1, _) => RunLeaving(base, cfg, s1, script[1..]);
        case Leave(s1, outcome) =>
          EpilogueCancelled(base, s1, outcome, script[0]);
          if !s1.cancelled {
            EpilogueClosed(base, s1, outcome, script[0]);
          }
        case Drop(_) =>
      }
    }
  }

  /** However a run ends uncancelled, failures included: before every user message the log has what was said there. */
  lemma LogKeptUpToTheLastUser(
    cfg: Config, entries: seq<Entry>, waiting: seq<Said>, goal: Option<Goal>, left: Option<ContinueKind>,
    script: seq<World>)
    requires AllCalm(script) && AllInStep(cfg, Fresh(entries, waiting, goal, left), script)
    ensures var r := RunOver(cfg, Fresh(entries, waiting, goal, left), script);
            r.Ended? && !r.s.cancelled ==>
              Logged(Spoken(entries), r.s.trace).closed == Spoken(r.s.entries).closed
  {
    hide RunOver, Spoken, Logged, AllCalm, AllInStep, Level;
    FreshLevel(entries, waiting, goal, left);
    RunLeaving(Spoken(entries), cfg, Fresh(entries, waiting, goal, left), script);
  }
}
