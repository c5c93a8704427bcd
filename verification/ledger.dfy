/**
 What the event stream of a run must look like: turns and steps pair up, step
 indices and tool batches count without gaps over suspensions, usage adds up,
 and every run has one beginning and one end.

 `Ledger` is a monitor that reads a trace act by act. The trace of a resumed
 run continues that of its earlier segments, so each statement here is about
 the whole logical run.
 */
module Ledgers {
  import opened Transcript
  import opened Options
  import opened Retry
  import opened AgentLoop

  datatype Steps = Steps(
    turnOpen: bool, turns: nat, closed: nat, notices: nat, reason: StopReason,
    modelOpen: bool, model: nat, toolOpen: bool, tool: nat, ok: bool)

  datatype Ends = Ends(openers: nat, suspended: nat, finished: nat, cancelled: nat, failed: nat) {
    predicate Running() {
      openers == suspended + 1 && finished == cancelled == failed == 0
    }
  }

  /**
   `calls` counts the requests of the current turn, `most` the largest such count, `waits` its announced retries;
   `honest` is about totals, `paced` about requests and retries taking turns.
   */
  datatype Ledger = Ledger(
    steps: Steps, ends: Ends, used: Usage, next: nat, contiguous: bool, calls: nat, most: nat, honest: bool,
    waits: nat, paced: bool)

  const BLANK := Ledger(
    Steps(false, 0, 0, 0, EndTurn, false, 0, false, 0, true), Ends(0, 0, 0, 0, 0), NO_USAGE, 0, true, 0, 0, true, 0,
    true)

  /** Doubling from one second, cut at a minute. */
  function Wait(attempt: nat): nat {
    if 1 <= attempt <= 6 then Pow2(attempt - 1) else 60
  }

  function ReadStep(b: Steps, a: Act): Steps {
    match a
    case TurnStarted =>
      b.(turnOpen := true, turns := b.turns + 1, ok := b.ok && !b.turnOpen && !b.modelOpen && !b.toolOpen)
    case TurnFinished(reason) =>
      b.(turnOpen := false, closed := b.closed + 1, reason := reason, ok := b.ok && b.turnOpen && !b.modelOpen)
    case ModelStarted(i) =>
      b.(modelOpen := true, model := i, ok := b.ok && b.turnOpen && !b.modelOpen && !b.toolOpen && i == b.model + 1)
    case ModelFinished(i) =>
      b.(modelOpen := false, ok := b.ok && b.modelOpen && i == b.model)
    case ToolStarted(i) =>
      b.(toolOpen := true, tool := i, ok := b.ok && b.turnOpen && !b.modelOpen && !b.toolOpen && i == b.tool + 1)
    case ToolFinished(i) =>
      b.(toolOpen := false, ok := b.ok && b.toolOpen && i == b.tool)
    case Wrote(line) =>
      if line == FeedbackUser(FormatNotice) then
        b.(turnOpen := false, notices := b.notices + 1, ok := b.ok && b.turnOpen && !b.modelOpen && !b.toolOpen)
      else b
    case _ => b
  }

  function Read(b: Ledger, a: Act): Ledger {
    match a
    case RunStarted => b.(ends := b.ends.(openers := b.ends.openers + 1))
    case RunResumed => b.(ends := b.ends.(openers := b.ends.openers + 1))
    case RunSuspended => b.(ends := b.ends.(suspended := b.ends.suspended + 1))
    case RunFinished(total) =>
      b.(ends := b.ends.(finished := b.ends.finished + 1), honest := b.honest && total == b.used)
    case RunCancelled => b.(ends := b.ends.(cancelled := b.ends.cancelled + 1))
    case RunFailed(_) => b.(ends := b.ends.(failed := b.ends.failed + 1))
    case Used(usage) => b.(used := b.used.Plus(usage))
    case Dispatched(first, size) => b.(next := first + size, contiguous := b.contiguous && first == b.next)
    case TurnStarted => b.(steps := ReadStep(b.steps, a), calls := 0, waits := 0)
    case Asked(_) =>
      b.(calls := b.calls + 1, most := Max(b.most, b.calls + 1), paced := b.paced && b.waits == b.calls)
    case Retrying(n, seconds) =>
      b.(waits := b.waits + 1, paced := b.paced && n == b.calls == b.waits + 1 && seconds == Wait(n))
    case _ => b.(steps := ReadStep(b.steps, a))
  }

  function LedgerOf(t: Trace): Ledger {
    if t == [] then BLANK else Read(LedgerOf(t[..|t| - 1]), t[|t| - 1])
  }

  lemma Law()
    ensures forall t, a {:trigger Then(t, a)} :: LedgerOf(Then(t, a)) == Read(LedgerOf(t), a)
  {
    forall t: Trace, a: Act ensures LedgerOf(Then(t, a)) == Read(LedgerOf(t), a) {
      assert (t + [a])[..|t|] == t;
    }
  }

  // ------------------------------------------------------------- invariants

  predicate Booked(s: State) {
    var l := LedgerOf(s.trace);
    && l.steps.ok && l.steps.turns == l.steps.model && !l.steps.modelOpen
    && l.steps.model == s.c.modelStep && l.steps.tool == s.c.toolStep
    && l.steps.turns == l.steps.closed + l.steps.notices + (if l.steps.turnOpen then 1 else 0)
    && l.used == s.c.total
    && l.contiguous && l.honest
    && l.most <= MAX_MODEL_RETRIES + 1 && l.paced
  }

  predicate AtTop(s: State) {
    var l := LedgerOf(s.trace);
    && Booked(s) && !l.steps.turnOpen && !l.steps.toolOpen && l.next == s.c.offset && l.ends.Running()
    && s.checkpoint.None?
  }

  predicate InTurn(s: State) {
    var l := LedgerOf(s.trace);
    && Booked(s) && l.steps.turnOpen && !l.steps.toolOpen && l.next == s.c.offset && l.ends.Running()
    && s.checkpoint.None?
  }

  /** On leaving the loop; a tool step is left open exactly by a failed dispatch. */
  predicate AtExit(s: State, outcome: Outcome) {
    var l := LedgerOf(s.trace);
    && Booked(s) && !l.steps.turnOpen
    && (if l.steps.toolOpen then l.steps.reason == TurnCancelled else l.next == s.c.offset)
    && (if outcome == Failure(Suspended) then
          l.ends == Ends(l.ends.suspended, l.ends.suspended, 0, 0, 0) && s.checkpoint == Some(s.c)
          && !l.steps.toolOpen
        else l.ends.Running() && s.checkpoint.None?)
  }

  // ------------------------------------------------------------- small steps

  lemma {:induction false} WriteUsersSilent(t: Trace, drained: seq<Said>)
    ensures LedgerOf(WriteUsers(t, drained)) == LedgerOf(t)
    decreases |drained|
  {
    hide LedgerOf;
    Law();
    if drained != [] {
      WriteUsersSilent(Then(t, Wrote(DrainedUser(drained[0]))), drained[1..]);
    }
  }

  lemma DrainSilent(s: State)
    ensures LedgerOf(Drain(s).trace) == LedgerOf(s.trace) && Drain(s).c == s.c && Drain(s).checkpoint == s.checkpoint
  {
    WriteUsersSilent(s.trace, s.inbox.pending);
  }

  lemma FlushSilent(s: State)
    ensures LedgerOf(Flush(s).trace) == LedgerOf(s.trace) && Flush(s).c == s.c && Flush(s).checkpoint == s.checkpoint
  {
    hide Card, LedgerOf;
    Law();
  }

  lemma InstallSilent(s: State, es: seq<Entry>)
    ensures LedgerOf(Install(s, es).trace) == LedgerOf(s.trace)
    ensures Install(s, es).c == s.c && Install(s, es).checkpoint == s.checkpoint
  {
    hide Card, LedgerOf;
    Law();
  }

  lemma DelayIsWait(attempt: nat)
    requires 1 <= attempt <= 64
    ensures RetryDelay(attempt) == Wait(attempt)
  {
    RetryDelayExact(attempt);
  }

  lemma {:induction false} AskReading(t: Trace, es: seq<Entry>, a: Attempts, k: nat)
    requires k <= MAX_MODEL_RETRIES
    requires LedgerOf(t).calls == k == LedgerOf(t).waits
    ensures var l, m := LedgerOf(t), LedgerOf(AskTrace(t, es, a, k));
            && m == l.(calls := m.calls, most := Max(l.most, m.calls), waits := m.waits)
            && k < m.calls <= MAX_MODEL_RETRIES + 1
    decreases MAX_MODEL_RETRIES - k
  {
    hide RetryDelay, LedgerOf, Wait;
    Law();
    DelayIsWait(k + 1);
    if Retries(a, k) && !a[k].cancelled {
      AskReading(Then(Then(t, Asked(es)), Retrying(k + 1, RetryDelay(k + 1))), es, a, k + 1);
    }
  }

  // ------------------------------------------------------------- stages

  lemma BoundaryBooks(s: State, w: World)
    requires AtTop(s)
    ensures AtTop(Boundary(s, w).s) && Boundary(s, w).s.c == s.c
  {
    hide LedgerOf, Drain, Install;
    Law();
    var s1 := Arrive(s, w.typedBefore).(cancelled := s.cancelled || w.cancelBefore);
    DrainSilent(s1);
    var s2 := MaybeSetMarker(Drain(s1));
    InstallSilent(s2, SUMMARY);
    if w.compaction.Replaced? {
      InstallSilent(s2, w.compaction.entries);
    }
  }

  lemma ModelStepBooks(s: State, w: World)
    requires AtTop(s)
    ensures InTurn(ModelStep(s, w).0) && ModelStep(s, w).0.c.modelStep == s.c.modelStep + 1
  {
    hide LedgerOf, AskTrace, AskAtoms, Settle, Max;
    Law();
    var s1 := StartTurn(s);
    AskReading(s1.trace, s1.entries, w.attempts, 0);
    MaxLimit();
    var s2 := TryModel(s1, w.streaming, w.attempts).0;
    assert LedgerOf(s2.trace).most <= MAX_MODEL_RETRIES + 1;
    assert InTurn(Do(s2, ModelFinished(s2.c.modelStep)));
  }

  lemma MaxLimit()
    ensures forall m, n {:trigger Max(m, n)} :: Max(m, n) == m || Max(m, n) == n
  {
  }

  lemma AccountBooks(s: State, usage: Usage)
    requires InTurn(s)
    ensures InTurn(Account(s, usage)) && Account(s, usage).c.modelStep == s.c.modelStep
  {
    hide LedgerOf;
    Law();
  }

  lemma OnErrorBooks(cfg: Config, s: State, e: ClientError)
    requires InTurn(s)
    ensures var r := OnError(cfg, s, e);
            r.s.c.modelStep == s.c.modelStep && ((r.Again? && AtTop(r.s)) || (r.Leave? && AtExit(r.s, r.outcome)))
  {
    hide LedgerOf, Install, EmergencyReset;
    Law();
    InstallSilent(s.(b := s.b.(resetTried := true)), EmergencyReset(s.entries, cfg.keepRecentTurns));
  }

  lemma RecoverBooks(s: State, streaming: bool, text: string, cleaned: string)
    requires InTurn(s)
    ensures var r := Recover(s, streaming, text, cleaned); r.Again? && AtTop(r.s) && r.s.c == s.c
  {
    hide LedgerOf, Chars, Push;
    Law();
  }

  lemma CloseTurnBooks(s: State, w: World, text: string, cleaned: string)
    requires InTurn(s)
    ensures AtTop(CloseTurn(s, w, text, cleaned)) && CloseTurn(s, w, text, cleaned).c == s.c
  {
    hide LedgerOf, Flush, Push;
    Law();
    FlushSilent(Do(Do(s.(seg := s.seg.(final := text)), TextDone(text)), TurnFinished(EndTurn)));
  }

  lemma PersistBooks(s: State, condition: string, reason: string)
    requires AtTop(s)
    ensures AtTop(Persist(s, condition, reason)) && Persist(s, condition, reason).c == s.c
  {
    hide LedgerOf, Push;
    Law();
  }

  lemma ConcludeBooks(s: State, kind: MarkKind, a: Act)
    requires AtTop(s) && (a.GoalAchieved? || a.GoalImpossible?)
    ensures AtTop(Conclude(s, kind, a)) && Conclude(s, kind, a).c == s.c
  {
    hide LedgerOf;
    Law();
  }

  lemma JudgeBooks(cfg: Config, s: State, w: World, text: string)
    requires AtTop(s)
    ensures var r := Judge(cfg, s, w, text);
            AtTop(r.s) && r.s.c.modelStep == s.c.modelStep && !r.Drop? && (r.Leave? ==> r.outcome != Failure(Suspended))
  {
    hide LedgerOf, Flush, Conclude, Persist;
    FlushSilent(s);
    if s.goal.Some? && cfg.hasJudge {
      var s1 := Flush(s).(cancelled := s.cancelled || w.cancelJudge);
      match w.verdict {
        case IsAchieved => ConcludeBooks(s1, Achieved, GoalAchieved);
        case IsImpossible => ConcludeBooks(s1, Impossible, GoalImpossible);
        case NotYet(reason) => PersistBooks(s1, s.goal.value.condition, reason);
      }
    }
  }

  lemma StopHookBooks(cfg: Config, s: State, w: World, text: string)
    requires AtTop(s)
    ensures var r := StopHook(cfg, s, w, text);
            AtTop(r.s) && r.s.c.modelStep == s.c.modelStep && !r.Drop? && (r.Leave? ==> r.outcome != Failure(Suspended))
  {
    hide LedgerOf, Flush, Judge, Push;
    Law();
    FlushSilent(s);
    if cfg.hasHooks && s.b.hooks < MAX_STOP_INJECTIONS {
      var s1 := Do(Flush(s), Wrote(HookMark));
      assert AtTop(s1);
      JudgeBooks(cfg, s1, w, text);
    } else {
      JudgeBooks(cfg, s, w, text);
    }
  }

  lemma OnDoneBooks(cfg: Config, s: State, w: World, text: string, leaked: bool, cleaned: string)
    requires InTurn(s)
    ensures var r := OnDone(cfg, s, w, text, leaked, cleaned);
            AtTop(r.s) && r.s.c.modelStep == s.c.modelStep && !r.Drop? && (r.Leave? ==> r.outcome != Failure(Suspended))
  {
    hide LedgerOf, Drain, StopHook, CloseTurn, Recover;
    RecoverBooks(s, w.streaming, text, cleaned);
    var kept := if leaked then cleaned else text;
    CloseTurnBooks(s, w, text, kept);
    var s1 := CloseTurn(s, w, text, kept);
    DrainSilent(s1);
    StopHookBooks(cfg, PushLate(Drain(s1), w.late), w, kept);
  }

  lemma DispatchBooks(s: State, w: World, calls: seq<CallId>)
    requires InTurn(s)
    ensures var r := Dispatch(s, w, calls);
            var l := LedgerOf(r.trace);
            && r.c.modelStep == s.c.modelStep && Booked(r) && l.steps.turnOpen && l.steps.toolOpen
            && l.next == r.c.offset + |calls| && l.ends.Running() && r.checkpoint.None?
  {
    hide LedgerOf, Tools, Reached;
    Law();
  }

  lemma CollectBooks(s: State, w: World, calls: seq<CallId>)
    ensures LedgerOf(Collect(s, w, calls).trace) == Read(LedgerOf(s.trace), ToolFinished(s.c.toolStep))
    ensures Collect(s, w, calls).c == s.c.(offset := s.c.offset + |calls|)
    ensures Collect(s, w, calls).checkpoint == s.checkpoint
  {
    hide LedgerOf, Flush, Drain, Push, Reached;
    Law();
    var results := ToolResults(calls[..Reached(w, calls, s.cancelled)]);
    var s1 := s.(entries := Push(s.entries, results), c := s.c.(offset := s.c.offset + |calls|));
    var s2 := Do(s1, ToolFinished(s.c.toolStep));
    FlushSilent(s2);
    DrainSilent(Arrive(FlushIfPending(s2), w.typedBeforeDrain));
  }

  lemma AfterCallsBooks(s: State, w: World, calls: seq<CallId>)
    requires var l := LedgerOf(s.trace);
             && Booked(s) && l.steps.turnOpen && l.steps.toolOpen
             && l.next == s.c.offset + |calls| && l.ends.Running() && s.checkpoint.None?
    ensures var r := AfterCalls(s, w, calls);
            r.s.c.modelStep == s.c.modelStep && ((r.Again? && AtTop(r.s)) || (r.Leave? && AtExit(r.s, r.outcome)))
  {
    hide LedgerOf, Collect;
    Law();
    CollectBooks(s, w, calls);
  }

  lemma OnCallsBooks(cfg: Config, s: State, w: World, text: string, calls: seq<CallId>)
    requires InTurn(s)
    ensures var r := OnCalls(cfg, s, w, text, calls);
            r.s.c.modelStep == s.c.modelStep && ((r.Again? && AtTop(r.s)) || (r.Leave? && AtExit(r.s, r.outcome)))
  {
    hide LedgerOf, AfterCalls, Dispatch, Chars, Push;
    Law();
    var s1 := if w.streaming then s else Show(s, Chars(text));
    var s2 := s1.(entries := Push(s.entries, Assistant(text, calls)));
    DispatchBooks(s2, w, calls);
    AfterCallsBooks(Dispatch(s2, w, calls), w, calls);
  }

  lemma PassBooks(cfg: Config, s: State, w: World)
    requires AtTop(s)
    ensures var r := Pass(cfg, s, w);
            && (r.Again? || r.Drop? ==> AtTop(r.s)) && (r.Leave? ==> AtExit(r.s, r.outcome))
            && r.s.c.modelStep <= s.c.modelStep + 1
  {
    hide LedgerOf, Boundary, ModelStep, OnDone, OnCalls, OnError, Account;
    BoundaryBooks(s, w);
    match Boundary(s, w) {
      case Halt(_) =>
      case Abandon(_) =>
      case Go(s1) =>
        ModelStepBooks(s1, w);
        var (s2, reply) := ModelStep(s1, w);
        match reply {
          case Done(text, leaked, cleaned, usage, finish) =>
            AccountBooks(s2.(finish := finish), usage);
            OnDoneBooks(cfg, Account(s2.(finish := finish), usage), w, text, leaked, cleaned);
          case Calls(text, calls, usage) =>
            AccountBooks(s2, usage);
            OnCallsBooks(cfg, Account(s2, usage), w, text, calls);
          case Failed(e) =>
            OnErrorBooks(cfg, s2, e);
        }
    }
  }

  // ------------------------------------------------------------- runs

  /** A run that is over has one terminal event, of the kind its outcome calls for, or none if it sleeps. */
  predicate Closed(s: State, outcome: Outcome) {
    var l := LedgerOf(s.trace);
    && Booked(s) && !l.steps.turnOpen
    && (if l.steps.toolOpen then l.steps.reason == TurnCancelled else l.next == s.c.offset)
    && (match outcome
        case Success(_) => l.ends == Ends(l.ends.suspended + 1, l.ends.suspended, 1, 0, 0)
        case Failure(Suspended) =>
          l.ends == Ends(l.ends.suspended, l.ends.suspended, 0, 0, 0) && s.checkpoint == Some(s.c) && !l.steps.toolOpen
        case Failure(Cancelled) => l.ends == Ends(l.ends.suspended + 1, l.ends.suspended, 0, 1, 0)
        case Failure(_) => l.ends == Ends(l.ends.suspended + 1, l.ends.suspended, 0, 0, 1))
  }

  predicate Sound(r: Run) {
    match r
    case Going(s) => AtTop(s)
    case Abandoned(s) => AtTop(s)
    case Ended(s, outcome) => Closed(s, outcome)
  }

  lemma LawAt(t: Trace, a: Act)
    ensures LedgerOf(Then(t, a)) == Read(LedgerOf(t), a)
  {
    Law();
  }

  lemma EpilogueBooks(s: State, outcome: Outcome, w: World)
    requires AtExit(s, outcome)
    ensures Closed(Epilogue(s, outcome, w), outcome)
  {
    hide LedgerOf, Flush, ContinueFor, Then;
    var s1 := SetAccepting(Arrive(s, w.typedLeaving), false);
    FlushSilent(s1);
    var s2 := Flush(s1);
    var t := s2.trace;
    if outcome.Success? {
      LawAt(t, RunFinished(s.c.total));
    } else if outcome.error.Suspended? {
    } else {
      InterruptedBooks(s2, outcome.error);
    }
  }

  lemma InterruptedBooks(s: State, e: ModelError)
    requires AtExit(s, Failure(e)) && !e.Suspended?
    ensures var s1 := Do(Do(s, Wrote(InterruptedMark)), if e.Cancelled? then RunCancelled else RunFailed(e));
            forall k :: Closed(s1.(continueEntry := k), Failure(e))
  {
    hide LedgerOf, Then;
    LawAt(s.trace, Wrote(InterruptedMark));
    var t := Then(s.trace, Wrote(InterruptedMark));
    if e.Cancelled? {
      LawAt(t, RunCancelled);
    } else {
      LawAt(t, RunFailed(e));
    }
  }

  lemma {:induction false} RunBooks(cfg: Config, s: State, script: seq<World>)
    requires AtTop(s)
    ensures Sound(RunOver(cfg, s, script))
    decreases |script|
  {
    hide Pass, Epilogue, LedgerOf, AtTop, AtExit, Closed;
    if script != [] {
      PassBooks(cfg, s, script[0]);
      match Pass(cfg, s, script[0]) {
        case Again(s1, _) => RunBooks(cfg, s1, script[1..]);
        case Leave(s1, outcome) => EpilogueBooks(s1, outcome, script[0]);
        case Drop(_) =>
      }
    }
  }

  lemma ResumedBooks(s: State, entries: seq<Entry>, waiting: seq<Said>)
    requires Closed(s, Failure(Suspended))
    ensures AtTop(Resumed(s, entries, waiting))
  {
    hide LedgerOf;
    Law();
  }

  lemma FreshBooks(entries: seq<Entry>, waiting: seq<Said>, goal: Option<Goal>, left: Option<ContinueKind>)
    ensures AtTop(Fresh(entries, waiting, goal, left))
  {
    hide LedgerOf;
    Law();
    assert [RunStarted] == Then([], RunStarted);
    assert LedgerOf([]) == BLANK by { LedgerOfNothing(); }
  }

  lemma LedgerOfNothing()
    ensures LedgerOf([]) == BLANK
  {
  }

  /** Every logical run, through any number of suspensions, keeps its books. */
  lemma {:induction false} LogicalRunBooks(cfg: Config, s: State, script: seq<World>, legs: seq<Leg>)
    requires AtTop(s)
    ensures Sound(LogicalRun(cfg, s, script, legs))
    decreases |legs|
  {
    hide RunOver, Resumed, LedgerOf, AtTop, Closed;
    RunBooks(cfg, s, script);
    var r := RunOver(cfg, s, script);
    if legs != [] && r.Ended? && r.outcome == Failure(Suspended) {
      ResumedBooks(r.s, legs[0].entries, legs[0].waiting);
      LogicalRunBooks(cfg, Resumed(r.s, legs[0].entries, legs[0].waiting), legs[0].script, legs[1..]);
    }
  }
}
