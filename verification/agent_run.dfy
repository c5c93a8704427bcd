/**
 The run loop as it is written: one object whose fields the loop updates in place,
 loops where the original loops, early exits where it breaks or continues. Every
 method is proved to do what the step function of `AgentLoop` says, so what holds
 of all scripts there holds of this loop.
 */
module AgentRuns {
  import opened Transcript
  import opened Options
  import opened Retry
  import opened AgentLoop
  import Journal
  import Ledgers
  import RunEvents
  import RunPromises

  /** How one trip round the loop ends: by `continue`, by `break` with a result, or by returning outright. */
  datatype Exit = Continue(why: Why) | Break(outcome: Outcome) | Return

  function TripOf(exit: Exit, s: State): Trip {
    match exit
    case Continue(why) => Again(s, why)
    case Break(outcome) => Leave(s, outcome)
    case Return => Drop(s)
  }

  /** What the top of the loop decides. */
  datatype Decision = Proceed | Halted | Quit

  function GateOf(decision: Decision, s: State): Gate {
    match decision
    case Proceed => Go(s)
    case Halted => Halt(s)
    case Quit => Abandon(s)
  }

  function RunOf(exit: Option<Exit>, s: State): Run {
    match exit
    case None => Going(s)
    case Some(Break(outcome)) => Ended(s, outcome)
    case Some(_) => Abandoned(s)
  }

  lemma DrainStep(t: Trace, es: seq<Entry>, drained: seq<Said>, i: nat)
    requires i < |drained|
    ensures WriteUsers(t, drained[i..]) == WriteUsers(Then(t, Wrote(DrainedUser(drained[i]))), drained[i + 1..])
    ensures PushUsers(es, drained[i..]) == PushUsers(Push(es, User(drained[i])), drained[i + 1..])
  {
    hide Then, Push;
    assert drained[i..][0] == drained[i] && drained[i..][1..] == drained[i + 1..];
  }

  lemma DrainDone(t: Trace, es: seq<Entry>)
    ensures WriteUsers(t, []) == t && PushUsers(es, []) == es
  {
  }

  class AgentRun {
    const cfg: Config

    var entries: seq<Entry>
    var inbox: Inbox
    var cancelled: bool
    var c: Counters
    var b: Budgets
    var goal: Option<Goal>
    var seg: Segment
    var finish: Finish
    var continueEntry: Option<ContinueKind>
    var checkpoint: Option<Counters>
    var trace: Trace

    ghost function View(): State
      reads this
    {
      State(entries, inbox, cancelled, c, b, goal, seg, finish, continueEntry, checkpoint, trace)
    }

    /** A new run: its inbox may hold inputs already, and its goal may still lack its marker. */
    constructor Start(
      cfg: Config, entries: seq<Entry>, waiting: seq<Said>, goal: Option<Goal>, left: Option<ContinueKind>)
      ensures this.cfg == cfg && View() == Fresh(entries, waiting, goal, left)
      ensures Ledgers.AtTop(View()) && Journal.Kept([], true, View()) && inbox.accepting
    {
      this.cfg, this.entries := cfg, entries;
      inbox, cancelled := Inbox(true, waiting, [], waiting), false;
      c, b, this.goal, seg, finish := ZERO, UNSPENT, goal, NOTHING, Stop;
      trace := [RunStarted];
      continueEntry, checkpoint := left, None;
      new;
      MaybeEmitPendingSetMarker();
      Ledgers.FreshBooks(entries, waiting, goal, left);
      RunPromises.FreshKeeps(entries, waiting, goal, left);
    }

    // ----------------------------------------------------------- small steps

    /** The surface: an input is queued only while the run accepts. */
    method Inject(typed: seq<Said>)
      modifies `inbox
      ensures View() == Arrive(old(View()), typed)
    {
      if inbox.accepting {
        InjectLate(typed);
      }
    }

    /** The surface again: the flag was looked at before it went down, the push comes after. */
    method InjectLate(typed: seq<Said>)
      modifies `inbox
      ensures View() == PushLate(old(View()), typed)
    {
      inbox := inbox.(pending := inbox.pending + typed, arrived := inbox.arrived + typed);
    }

    method SetPendingInputsAccepting(accepting: bool)
      modifies `inbox
      ensures View() == SetAccepting(old(View()), accepting)
    {
      inbox := inbox.(accepting := accepting);
    }

    method DrainPendingInputs() returns (n: nat)
      modifies `inbox, `trace, `entries
      ensures View() == Drain(old(View())) && n == |old(inbox.pending)|
    {
      hide WriteUsers, PushUsers;
      var drained := inbox.pending;
      inbox := inbox.(pending := []);
      n := |drained|;
      if n == 0 {
        DrainDone(trace, entries);
        assert inbox.consumed + drained == inbox.consumed;
        return;
      }
      TakeIn(drained);
    }

    method TakeIn(drained: seq<Said>)
      modifies `inbox, `trace, `entries
      ensures inbox == old(inbox).(consumed := old(inbox).consumed + drained)
      ensures trace == WriteUsers(old(trace), drained) && entries == PushUsers(old(entries), drained)
    {
      hide Then, Push, WriteUsers, PushUsers;
      assert drained[0..] == drained;
      for i := 0 to |drained|
        invariant inbox == old(inbox).(consumed := old(inbox).consumed + drained[..i])
        invariant WriteUsers(trace, drained[i..]) == WriteUsers(old(trace), drained)
        invariant PushUsers(entries, drained[i..]) == PushUsers(old(entries), drained)
      {
        DrainStep(trace, entries, drained, i);
        inbox := inbox.(consumed := inbox.consumed + [drained[i]]);
        trace := Then(trace, Wrote(DrainedUser(drained[i])));
        entries := Push(entries, User(drained[i]));
      }
      DrainDone(trace, entries);
      assert drained[..|drained|] == drained && drained[|drained|..] == [];
    }

    method PushSystemFeedback(said: Said)
      modifies `trace, `entries
      ensures View() == Feedback(old(View()), said)
    {
      trace := Then(trace, Wrote(FeedbackUser(said)));
      entries := Push(entries, User(said));
    }

    method MaybeEmitPendingSetMarker()
      modifies `trace, `goal
      ensures View() == MaybeSetMarker(old(View()))
    {
      if goal.None? {
        return;
      }
      if !goal.value.pendingSet {
        return;
      }
      trace := Then(trace, Wrote(GoalMark(GoalSet, 0)));
      goal := Some(goal.value.(pendingSet := false));
    }

    method ShowAtoms(more: seq<Atom>)
      modifies `seg
      ensures View() == Show(old(View()), more)
    {
      seg := seg.(atoms := seg.atoms + more);
    }

    method FlushSegment()
      modifies `trace, `seg
      ensures View() == Flush(old(View()))
    {
      var card := Card(seg);
      seg := NOTHING;
      if card != [] {
        trace := Then(trace, Wrote(AssistantCard(card)));
      }
    }

    method FlushBeforeDrain()
      modifies `trace, `seg
      ensures View() == FlushIfPending(old(View()))
    {
      if inbox.pending != [] {
        FlushSegment();
      }
    }

    method InstallContext(es: seq<Entry>)
      modifies `entries, `trace, `seg
      ensures View() == Install(old(View()), es)
    {
      entries := es;
      FlushSegment();
      trace := Then(trace, Wrote(CompactMark));
      trace := Then(trace, Compacted);
    }

    method RecordRequestUsage(usage: Usage)
      modifies `trace, `c
      ensures View() == Account(old(View()), usage)
    {
      trace := Then(trace, Used(usage));
      c := c.(total := c.total.Plus(usage));
    }

    // ----------------------------------------------------------- the loop's parts

    /** What a goal command from outside does to the session the run reads its goal from. */
    method EditGoalOutside(edit: GoalEdit)
      modifies `goal
      ensures View() == EditGoal(old(View()), edit)
    {
      match edit
      case KeepGoal =>
      case SetGoal(condition) => goal := Some(Goal(condition, 0, true));
      case ClearGoal => goal := None;
    }

    method CallModel(streaming: bool, attempts: Attempts) returns (reply: Reply)
      modifies `trace, `seg, `cancelled
      ensures (View(), reply) == TryModel(old(View()), streaming, attempts)
    {
      hide AskTrace, AskAtoms, Settle;
      reply := RetryLoop(streaming, attempts);
    }

    /** The retry loop round the model call. */
    method RetryLoop(streaming: bool, attempts: Attempts) returns (reply: Reply)
      modifies `trace, `seg, `cancelled
      ensures trace == AskTrace(old(trace), entries, attempts, 0)
      ensures seg == if streaming then old(seg).(atoms := old(seg.atoms) + AskAtoms(attempts, 0)) else old(seg)
      ensures reply == Settle(attempts, 0).reply && cancelled == (old(cancelled) || Settle(attempts, 0).cancelled)
    {
      hide Then, Streamed, RetryDelay, IsRetryable, AskTrace, AskAtoms, Settle;
      var k := 0;
      while true
        invariant k <= MAX_MODEL_RETRIES
        invariant Settle(attempts, k) == Settle(attempts, 0)
        invariant AskTrace(trace, entries, attempts, k) == AskTrace(old(trace), entries, attempts, 0)
        invariant streaming ==> seg.atoms + AskAtoms(attempts, k) == old(seg.atoms) + AskAtoms(attempts, 0)
        invariant seg == if streaming then old(seg).(atoms := seg.atoms) else old(seg)
        invariant cancelled == old(cancelled)
        decreases MAX_MODEL_RETRIES - k
      {
        var attempt := attempts[k];
        AskStep(trace, entries, attempts, k, seg.atoms);
        trace := Then(trace, Asked(entries));
        if streaming {
          seg := seg.(atoms := seg.atoms + Streamed(attempt));
        }
        if !Retries(attempts, k) {
          reply, cancelled := attempt.reply, cancelled || attempt.cancelled;
          return;
        }
        trace := Then(trace, Retrying(k + 1, RetryDelay(k + 1)));
        if attempt.cancelled {
          reply, cancelled := Failed(Cancelled), true;
          return;
        }
        k := k + 1;
      }
    }

    // ----------------------------------------------------------- one trip

    method CompactIfNeeded(compaction: Compaction) returns (decision: Decision)
      modifies this
      ensures GateOf(decision, View()) == Compact(old(View()), compaction)
    {
      hide Install;
      match compaction
      case NotNeeded => decision := Proceed;
      case CompactionFailed => decision := Proceed;
      case Summarised =>
        InstallContext(SUMMARY);
        decision := Proceed;
      case Replaced(es) =>
        InstallContext(es);
        decision := Proceed;
      case CompactionCancelled => decision := Quit;
    }

    method TopOfLoop(w: World) returns (decision: Decision)
      modifies this
      ensures GateOf(decision, View()) == Boundary(old(View()), w)
    {
      hide Drain, MaybeSetMarker, Compact, Arrive;
      Inject(w.typedBefore);
      cancelled := cancelled || w.cancelBefore;
      assert View() == Arrive(old(View()), w.typedBefore).(cancelled := old(cancelled) || w.cancelBefore);
      if cancelled {
        var _ := DrainPendingInputs();
        return Halted;
      }
      var _ := DrainPendingInputs();
      MaybeEmitPendingSetMarker();
      decision := CompactIfNeeded(w.compaction);
    }

    method AskModel(w: World) returns (reply: Reply)
      modifies this
      ensures (View(), reply) == ModelStep(old(View()), w)
    {
      hide Arrive, TryModel, EditGoal, Then;
      trace := Then(trace, TurnStarted);
      c := c.(modelStep := c.modelStep + 1);
      trace := Then(trace, ModelStarted(c.modelStep));
      assert View() == StartTurn(old(View()));
      reply := CallModel(w.streaming, w.attempts);
      trace := Then(trace, ModelFinished(c.modelStep));
      Inject(w.typedDuringModel);
      EditGoalOutside(w.goalEdit);
    }

    method HandleError(e: ClientError) returns (exit: Exit)
      modifies this
      ensures TripOf(exit, View()) == OnError(cfg, old(View()), e)
    {
      hide Install, Then;
      if e.ContextTooLong() && !b.resetTried {
        b := b.(resetTried := true);
        var start := RecentTurnStart(entries, Max(cfg.keepRecentTurns, 3));
        InstallContext(SUMMARY + entries[start..]);
        trace := Then(trace, TurnFinished(TurnFailed));
        return Continue(ForReset);
      }
      trace := Then(trace, TurnFinished(TurnFailed));
      exit := Break(Failure(e));
    }

    method RecoverLeak(streaming: bool, text: string, cleaned: string) returns (exit: Exit)
      modifies this
      ensures TripOf(exit, View()) == Recover(old(View()), streaming, text, cleaned)
    {
      hide Chars, Feedback, Push, Show;
      if !streaming {
        ShowAtoms(Chars(text));
      }
      b := b.(leaks := b.leaks + 1);
      entries := Push(entries, Assistant(cleaned, []));
      PushSystemFeedback(FormatNotice);
      exit := Continue(ForLeak);
    }

    method FinishTurn(w: World, text: string, cleaned: string)
      modifies this
      ensures View() == CloseTurn(old(View()), w, text, cleaned)
    {
      hide Then, FlushIfPending, Arrive, Push;
      seg := seg.(final := text);
      trace := Then(trace, TextDone(text));
      trace := Then(trace, TurnFinished(EndTurn));
      FlushBeforeDrain();
      Inject(w.typedWhileClosing);
      entries := Push(entries, Assistant(cleaned, []));
      SetPendingInputsAccepting(false);
      Inject(w.typedWhileClosed);
    }

    method RunStopHook(w: World, text: string) returns (exit: Exit)
      modifies this
      ensures TripOf(exit, View()) == StopHook(cfg, old(View()), w, text)
    {
      hide Then, Flush, Feedback, Judge;
      if cfg.hasHooks && b.hooks < MAX_STOP_INJECTIONS {
        FlushSegment();
        trace := Then(trace, Wrote(HookMark));
        if w.hook.InjectFollowup? && w.hook.reminder != "" {
          b := b.(hooks := b.hooks + 1);
          PushSystemFeedback(HookFeedback(w.hook.reminder));
          SetPendingInputsAccepting(true);
          return Continue(ForHook);
        }
      }
      exit := JudgeGoal(w, text);
    }

    method JudgeGoal(w: World, text: string) returns (exit: Exit)
      modifies this
      ensures TripOf(exit, View()) == Judge(cfg, old(View()), w, text)
    {
      hide Flush, Conclude, Persist;
      if goal.None? {
        return Break(Success(text));
      }
      FlushSegment();
      if !cfg.hasJudge {
        return Break(Success(text));
      }
      cancelled := cancelled || w.cancelJudge;
      match w.verdict {
        case IsAchieved =>
          EndGoal(Achieved, GoalAchieved);
        case IsImpossible =>
          EndGoal(Impossible, GoalImpossible);
        case NotYet(reason) =>
          if cancelled {
            return Break(Failure(Cancelled));
          }
          PursueGoal(goal.value.condition, reason);
          return Continue(ForGoal);
      }
      exit := Break(Success(text));
    }

    method EndGoal(kind: MarkKind, a: Act)
      modifies this
      ensures View() == Conclude(old(View()), kind, a)
    {
      hide Then;
      goal := None;
      trace := Then(trace, Wrote(GoalMark(kind, b.goals)));
      trace := Then(trace, a);
    }

    method PursueGoal(condition: string, reason: string)
      modifies this
      ensures View() == Persist(old(View()), condition, reason)
    {
      hide Then, Feedback;
      b := b.(goals := b.goals + 1);
      goal := Some(Goal(condition, b.goals, false));
      trace := Then(trace, Wrote(GoalMark(Progress, b.goals)));
      trace := Then(trace, GoalProgressed(b.goals));
      PushSystemFeedback(GoalFeedback(reason));
      SetPendingInputsAccepting(true);
    }

    method HandleDone(w: World, text: string, leaked: bool, cleaned: string) returns (exit: Exit)
      modifies this
      ensures TripOf(exit, View()) == OnDone(cfg, old(View()), w, text, leaked, cleaned)
    {
      hide Recover, CloseTurn, Drain, StopHook;
      if leaked && b.leaks < MAX_TOOL_XML_LEAK_RECOVERIES {
        exit := RecoverLeak(w.streaming, text, cleaned);
        return;
      }
      var kept := if leaked then cleaned else text;
      FinishTurn(w, text, kept);
      var drained := DrainPendingInputs();
      InjectLate(w.late);
      if drained > 0 {
        SetPendingInputsAccepting(true);
        return Continue(ForInput);
      }
      exit := RunStopHook(w, kept);
    }

    method RunCalls(w: World, calls: seq<CallId>)
      modifies this
      ensures View() == Dispatch(old(View()), w, calls)
    {
      hide Then, Tools, Arrive, Reached, Show;
      c := c.(iteration := c.iteration + 1, toolStep := c.toolStep + 1);
      trace := Then(trace, ToolStarted(c.toolStep));
      trace := Then(trace, Dispatched(c.offset, |calls|));
      Inject(w.typedDuringTools);
      cancelled := cancelled || w.cancelTools;
      if !w.streaming {
        ShowAtoms(Tools(calls[..Reached(w, calls, cancelled)]));
      }
    }

    method CollectResults(w: World, calls: seq<CallId>)
      modifies this
      ensures View() == Collect(old(View()), w, calls)
    {
      hide Then, Arrive, Reached, FlushIfPending, Drain, Push;
      entries := Push(entries, ToolResults(calls[..Reached(w, calls, cancelled)]));
      c := c.(offset := c.offset + |calls|);
      trace := Then(trace, ToolFinished(c.toolStep));
      FlushBeforeDrain();
      Inject(w.typedBeforeDrain);
      var _ := DrainPendingInputs();
    }

    method HandleCalls(w: World, text: string, calls: seq<CallId>) returns (exit: Exit)
      modifies this
      ensures TripOf(exit, View()) == OnCalls(cfg, old(View()), w, text, calls)
    {
      hide Then, Chars, Dispatch, AfterCalls, Push, Show;
      if !w.streaming {
        ShowAtoms(Chars(text));
      }
      entries := Push(entries, Assistant(text, calls));
      if cfg.maxToolIterations.Some? && c.iteration >= cfg.maxToolIterations.value {
        trace := Then(trace, TurnFinished(MaxIterations));
        return Break(Failure(Other(false)));
      }
      RunCalls(w, calls);
      exit := SettleCalls(w, calls);
    }

    method SettleCalls(w: World, calls: seq<CallId>) returns (exit: Exit)
      modifies this
      ensures TripOf(exit, View()) == AfterCalls(old(View()), w, calls)
    {
      hide Then, Collect;
      if w.toolError.Some? {
        trace := Then(trace, TurnFinished(TurnCancelled));
        return Break(Failure(w.toolError.value));
      }
      CollectResults(w, calls);
      if w.suspend {
        trace := Then(trace, RunSuspended);
        checkpoint := Some(c);
        trace := Then(trace, TurnFinished(EndTurn));
        return Break(Failure(Suspended));
      }
      trace := Then(trace, TurnFinished(EndTurn));
      exit := Continue(ForTools);
    }

    method OneTrip(w: World) returns (exit: Exit)
      modifies this
      ensures TripOf(exit, View()) == Pass(cfg, old(View()), w)
    {
      hide Boundary, ModelStep, OnError, OnDone, OnCalls, Account;
      var decision := TopOfLoop(w);
      match decision
      case Halted => return Break(Failure(Cancelled));
      case Quit => return Return;
      case Proceed =>
        var reply := AskModel(w);
        match reply
        case Failed(e) => exit := HandleError(e);
        case Done(text, leaked, cleaned, usage, finishReason) =>
          finish := finishReason;
          RecordRequestUsage(usage);
          exit := HandleDone(w, text, leaked, cleaned);
        case Calls(text, calls, usage) =>
          RecordRequestUsage(usage);
          exit := HandleCalls(w, text, calls);
    }

    // ----------------------------------------------------------- the run

    method WindUp(outcome: Outcome, w: World)
      modifies this
      ensures View() == Epilogue(old(View()), outcome, w)
    {
      hide Then, Arrive, Flush, ContinueFor;
      Inject(w.typedLeaving);
      SetPendingInputsAccepting(false);
      FlushSegment();
      match outcome {
        case Success(_) =>
          trace := Then(trace, RunFinished(c.total));
        case Failure(e) =>
          if e.Suspended? {
            return;
          }
          trace := Then(trace, Wrote(InterruptedMark));
          trace := Then(trace, if e.Cancelled? then RunCancelled else RunFailed(e));
      }
      continueEntry := ContinueFor(outcome, finish);
    }

    /**
     The whole run over a script: `None` while the script has run out before the run has. Every input accepted on the
     way is delivered once and in order.
     */
    method Drive(script: seq<World>) returns (exit: Option<Exit>)
      modifies this
      ensures RunOf(exit, View()) == RunOver(cfg, old(View()), script)
      ensures old(inbox.accepting) ==>
                forall before :: Journal.Kept(before, false, old(View())) ==>
                  RunPromises.Delivered(before, false, RunOf(exit, View()), script,
                                        RunPromises.Trips(cfg, old(View()), script))
    {
      hide Pass, Epilogue, Journal.Kept, RunPromises.Delivered, RunPromises.Trips;
      if inbox.accepting {
        forall before | Journal.Kept(before, false, View()) {
          RunPromises.RunDelivers(before, false, cfg, View(), script);
        }
      }
      var i := 0;
      assert script[0..] == script;
      while i < |script|
        invariant 0 <= i <= |script|
        invariant RunOver(cfg, View(), script[i..]) == RunOver(cfg, old(View()), script)
      {
        assert script[i..][0] == script[i] && script[i..][1..] == script[i + 1..];
        var left := OneTrip(script[i]);
        match left {
          case Continue(_) =>
          case Break(outcome) =>
            WindUp(outcome, script[i]);
            return Some(left);
          case Return =>
            return Some(left);
        }
        i := i + 1;
      }
      exit := None;
    }

    /** Wakes a sleeping run: the checkpointed counters come back, the rest of the loop's state starts anew. */
    method Wake(entries: seq<Entry>, waiting: seq<Said>)
      modifies this
      ensures View() == Resumed(old(View()), entries, waiting)
    {
      if checkpoint.None? {
        return;
      }
      hide Then;
      trace := Then(trace, RunResumed);
      this.entries := entries;
      inbox, cancelled := Inbox(true, waiting, [], waiting), false;
      c, b, seg, finish, checkpoint := checkpoint.value, UNSPENT, NOTHING, Stop, None;
    }

    /**
     One logical run: as long as it only sleeps and there is a wake-up left, it is driven on. An object whose books
     are in order keeps them: what it has used is what it reports, and it has one terminal event once it is over.
     */
    method Live(script: seq<World>, legs: seq<Leg>) returns (exit: Option<Exit>)
      modifies this
      ensures RunOf(exit, View()) == LogicalRun(cfg, old(View()), script, legs)
      ensures Ledgers.AtTop(old(View())) ==>
                var over := RunEvents.IsOver(RunOf(exit, View()));
                && Ledgers.Sound(RunOf(exit, View()))
                && c.total == RunEvents.SumUsed(trace)
                && RunEvents.Count(trace, RunEvents.IsTerminal) == (if over then 1 else 0)
                && (over ==> RunEvents.EndsAs(trace, RunOf(exit, View()).outcome))
    {
      hide RunOver, Resumed, Ledgers.AtTop, Ledgers.Sound, RunEvents.SumUsed, RunEvents.Count, RunEvents.EndsAs;
      exit := Drive(script);
      var i := 0;
      assert legs[0..] == legs;
      while exit == Some(Break(Failure(Suspended))) && i < |legs|
        invariant 0 <= i <= |legs|
        invariant Onwards(RunOf(exit, View()), legs[i..]) == LogicalRun(cfg, old(View()), script, legs)
      {
        assert legs[i..][0] == legs[i] && legs[i..][1..] == legs[i + 1..];
        Wake(legs[i].entries, legs[i].waiting);
        exit := Drive(legs[i].script);
        i := i + 1;
      }
      if Ledgers.AtTop(old(View())) {
        Ledgers.LogicalRunBooks(cfg, old(View()), script, legs);
        RunEvents.TokensConserved(cfg, old(View()), script, legs);
        RunEvents.OneEnding(cfg, old(View()), script, legs);
        RunEvents.LogicalRunEnds(cfg, old(View()), script, legs);
      }
    }

    /** What becomes of a run that stands at `r` with these wake-ups to come. */
    ghost function Onwards(r: Run, legs: seq<Leg>): Run {
      if legs == [] || !r.Ended? || r.outcome != Failure(Suspended) then r
      else LogicalRun(cfg, Resumed(r.s, legs[0].entries, legs[0].waiting), legs[0].script, legs[1..])
    }
  }

  /** One turn of the retry loop. */
  lemma AskStep(t: Trace, es: seq<Entry>, a: Attempts, k: nat, shown: seq<Atom>)
    requires k <= MAX_MODEL_RETRIES
    ensures var again := Retries(a, k) && !a[k].cancelled;
            var t1 := Then(t, Asked(es));
            && shown + AskAtoms(a, k) ==
               (if again then (shown + Streamed(a[k])) + AskAtoms(a, k + 1) else shown + Streamed(a[k]))
            && AskTrace(t, es, a, k) ==
               (if again then AskTrace(Then(t1, Retrying(k + 1, RetryDelay(k + 1))), es, a, k + 1)
                else if Retries(a, k) then Then(t1, Retrying(k + 1, RetryDelay(k + 1))) else t1)
            && (if again then Settle(a, k) == Settle(a, k + 1)
                else if Retries(a, k) then Settle(a, k).reply == Failed(Cancelled) && Settle(a, k).cancelled
                else Settle(a, k).reply == a[k].reply && Settle(a, k).cancelled == a[k].cancelled)
  {
    hide Streamed, RetryDelay, Then, IsRetryable;
    if !(Retries(a, k) && !a[k].cancelled) {
      assert Streamed(a[k]) + [] == Streamed(a[k]);
    }
  }
}
