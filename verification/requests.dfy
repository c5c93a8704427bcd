/**
 Which requests the model is sent. Every request of a run is grammatical exactly
 when no context compaction of the run installs a conversation that ends with an
 assistant entry, and the loop's own LLM summary always does.
 */
module Requests {
  import opened Transcript
  import opened Options
  import opened Retry
  import opened AgentLoop

  predicate AllReady(t: Trace) {
    forall i :: 0 <= i < |t| && t[i].Asked? ==> Ready(t[i].entries)
  }

  lemma Law()
    ensures forall t: Trace, a: Act {:trigger Then(t, a)} :: !a.Asked? ==> (AllReady(Then(t, a)) <==> AllReady(t))
    ensures forall t, es {:trigger Then(t, Asked(es))} :: AllReady(Then(t, Asked(es))) <==> AllReady(t) && Ready(es)
  {
    hide Ready;
    forall t: Trace, a: Act
      ensures AllReady(Then(t, a)) <==> AllReady(t) && (a.Asked? ==> Ready(a.entries))
    {
      assert (t + [a])[|t|] == a;
      assert forall i :: 0 <= i < |t| ==> (t + [a])[i] == t[i];
    }
  }

  // ------------------------------------------------------------- small steps

  lemma {:induction false} WriteUsersAsks(t: Trace, drained: seq<Said>)
    ensures AllReady(WriteUsers(t, drained)) <==> AllReady(t)
    decreases |drained|
  {
    hide AllReady;
    Law();
    if drained != [] {
      WriteUsersAsks(Then(t, Wrote(DrainedUser(drained[0]))), drained[1..]);
    }
  }

  lemma {:induction false} PushUsersReady(es: seq<Entry>, drained: seq<Said>)
    requires Ready(es)
    ensures Ready(PushUsers(es, drained))
    decreases |drained|
  {
    if drained != [] {
      PushTail(es, User(drained[0]));
      PushUsersReady(Push(es, User(drained[0])), drained[1..]);
    }
  }

  lemma DrainAsks(s: State)
    ensures AllReady(Drain(s).trace) <==> AllReady(s.trace)
    ensures Ready(s.entries) ==> Ready(Drain(s).entries)
    ensures Drain(s).cancelled == s.cancelled
  {
    hide Ready, AllReady;
    WriteUsersAsks(s.trace, s.inbox.pending);
    if Ready(s.entries) {
      PushUsersReady(s.entries, s.inbox.pending);
    }
  }

  lemma FlushAsks(s: State)
    ensures AllReady(Flush(s).trace) <==> AllReady(s.trace)
    ensures Flush(s).entries == s.entries && Flush(s).cancelled == s.cancelled
  {
    hide Card, AllReady;
    Law();
  }

  lemma InstallAsks(s: State, es: seq<Entry>)
    ensures AllReady(Install(s, es).trace) <==> AllReady(s.trace)
    ensures Install(s, es).entries == es && Install(s, es).cancelled == s.cancelled
  {
    hide Card, AllReady, Flush;
    Law();
    FlushAsks(s.(entries := es));
  }

  lemma FeedbackAsks(s: State, said: Said)
    ensures AllReady(Feedback(s, said).trace) <==> AllReady(s.trace)
    ensures TailOf(Feedback(s, said).entries) == Follow(TailOf(s.entries), User(said))
    ensures Feedback(s, said).cancelled == s.cancelled
  {
    hide AllReady;
    Law();
    PushTail(s.entries, User(said));
  }

  lemma {:induction false} AskAsks(t: Trace, es: seq<Entry>, a: Attempts, k: nat)
    requires k <= MAX_MODEL_RETRIES
    ensures AllReady(AskTrace(t, es, a, k)) <==> AllReady(t) && Ready(es)
    decreases MAX_MODEL_RETRIES - k
  {
    hide RetryDelay, AllReady, Ready;
    Law();
    if Retries(a, k) && !a[k].cancelled {
      AskAsks(Then(Then(t, Asked(es)), Retrying(k + 1, RetryDelay(k + 1))), es, a, k + 1);
    }
  }

  // ------------------------------------------------------------- stages

  /** The world makes this trip install a conversation that cannot be sent. */
  predicate Spoils(s: State, w: World) {
    && !s.cancelled && !w.cancelBefore
    && match w.compaction
       case Summarised => true
       case Replaced(es) => !Ready(es)
       case _ => false
  }

  predicate Sane(s: State) {
    s.cancelled || Ready(s.entries)
  }

  lemma BoundaryAsks(s: State, w: World)
    ensures var g := Boundary(s, w);
            && (AllReady(g.s.trace) <==> AllReady(s.trace))
            && (g.Go? && Sane(s) ==> (Ready(g.s.entries) <==> !Spoils(s, w)))
            && (Spoils(s, w) ==> g.Go?)
  {
    hide AllReady, Ready, Drain, Install;
    Law();
    SummaryTail();
    var s1 := Arrive(s, w.typedBefore).(cancelled := s.cancelled || w.cancelBefore);
    DrainAsks(s1);
    var s2 := MaybeSetMarker(Drain(s1));
    match w.compaction {
      case Summarised => InstallAsks(s2, SUMMARY);
      case Replaced(es) => InstallAsks(s2, es);
      case _ =>
    }
  }

  lemma ModelStepAsks(s: State, w: World)
    ensures var s1 := ModelStep(s, w).0;
            && (AllReady(s1.trace) <==> AllReady(s.trace) && Ready(s.entries))
            && s1.entries == s.entries
  {
    hide AllReady, Ready, AskTrace, AskAtoms, Settle;
    Law();
    var s1 := StartTurn(s);
    AskAsks(s1.trace, s1.entries, w.attempts, 0);
  }

  /** What an arm owes: it sends nothing itself, and goes round only with a conversation fit to send. */
  predicate Fit(s: State, r: Trip) {
    && (AllReady(r.s.trace) <==> AllReady(s.trace))
    && (Ready(s.entries) && r.Again? ==> Sane(r.s))
  }

  lemma OnErrorAsks(cfg: Config, s: State, e: ClientError)
    ensures Fit(s, OnError(cfg, s, e))
  {
    hide AllReady, Ready, Install, EmergencyReset;
    Law();
    InstallAsks(s.(b := s.b.(resetTried := true)), EmergencyReset(s.entries, cfg.keepRecentTurns));
    if Ready(s.entries) {
      ResetKeepsReady(s.entries, cfg.keepRecentTurns);
    }
  }

  lemma RecoverAsks(s: State, streaming: bool, text: string, cleaned: string)
    ensures Fit(s, Recover(s, streaming, text, cleaned))
  {
    hide AllReady, Chars, Push, Feedback, TailFrom;
    Law();
    PushTail(s.entries, Assistant(cleaned, []));
    var s1 := if streaming then s else Show(s, Chars(text));
    var s2 := s1.(b := s.b.(leaks := s.b.leaks + 1), entries := Push(s.entries, Assistant(cleaned, [])));
    FeedbackAsks(s2, FormatNotice);
  }

  /** An answer has been recorded and nothing follows it yet. */
  predicate Answered(s: State) {
    TailOf(s.entries) == ReplyTail([])
  }

  lemma CloseTurnAsks(s: State, w: World, text: string, cleaned: string)
    ensures var s1 := CloseTurn(s, w, text, cleaned);
            && (AllReady(s1.trace) <==> AllReady(s.trace))
            && (Ready(s.entries) ==> Answered(s1))
  {
    hide AllReady, Flush, Push, TailFrom;
    Law();
    var s1 := Do(Do(s.(seg := s.seg.(final := text)), TextDone(text)), TurnFinished(EndTurn));
    FlushAsks(s1);
    PushTail(s.entries, Assistant(cleaned, []));
  }

  /** One drained input is enough to make an answered conversation ready again. */
  lemma DrainAnswered(s: State)
    requires Answered(s) && s.inbox.pending != []
    ensures Ready(Drain(s).entries)
  {
    var first := s.inbox.pending[0];
    PushTail(s.entries, User(first));
    PushUsersReady(Push(s.entries, User(first)), s.inbox.pending[1..]);
  }

  lemma PersistAsks(s: State, condition: string, reason: string)
    ensures var s1 := Persist(s, condition, reason);
            && (AllReady(s1.trace) <==> AllReady(s.trace))
            && (Answered(s) ==> Ready(s1.entries))
  {
    hide AllReady, Feedback, TailFrom;
    Law();
    var n := s.b.goals + 1;
    var s1 := s.(b := s.b.(goals := n), goal := Some(Goal(condition, n, false)));
    FeedbackAsks(Do(Do(s1, Wrote(GoalMark(Progress, n))), GoalProgressed(n)), GoalFeedback(reason));
  }

  lemma JudgeAsks(cfg: Config, s: State, w: World, text: string)
    ensures var r := Judge(cfg, s, w, text);
            && (AllReady(r.s.trace) <==> AllReady(s.trace))
            && (r.Again? && Answered(s) ==> Ready(r.s.entries))
  {
    hide AllReady, Ready, Flush, Persist;
    Law();
    FlushAsks(s);
    if s.goal.Some? && cfg.hasJudge {
      var s1 := Flush(s).(cancelled := s.cancelled || w.cancelJudge);
      match w.verdict {
        case IsAchieved =>
        case IsImpossible =>
        case NotYet(reason) => PersistAsks(s1, s.goal.value.condition, reason);
      }
    }
  }

  lemma StopHookAsks(cfg: Config, s: State, w: World, text: string)
    ensures var r := StopHook(cfg, s, w, text);
            && (AllReady(r.s.trace) <==> AllReady(s.trace))
            && (r.Again? && Answered(s) ==> Ready(r.s.entries))
  {
    hide AllReady, Flush, Feedback, Judge, TailFrom;
    Law();
    if cfg.hasHooks && s.b.hooks < MAX_STOP_INJECTIONS {
      FlushAsks(s);
      var s1 := Do(Flush(s), Wrote(HookMark));
      JudgeAsks(cfg, s1, w, text);
      if w.hook.InjectFollowup? {
        FeedbackAsks(s1.(b := s.b.(hooks := s.b.hooks + 1)), HookFeedback(w.hook.reminder));
      }
    } else {
      JudgeAsks(cfg, s, w, text);
    }
  }

  lemma OnDoneAsks(cfg: Config, s: State, w: World, text: string, leaked: bool, cleaned: string)
    ensures Fit(s, OnDone(cfg, s, w, text, leaked, cleaned))
  {
    hide AllReady, Ready, Answered, Drain, StopHook, CloseTurn, Recover;
    if leaked && s.b.leaks < MAX_TOOL_XML_LEAK_RECOVERIES {
      RecoverAsks(s, w.streaming, text, cleaned);
    } else {
      var kept := if leaked then cleaned else text;
      CloseTurnAsks(s, w, text, kept);
      var s1 := CloseTurn(s, w, text, kept);
      DrainAsks(s1);
      if s1.inbox.pending != [] {
        if Ready(s.entries) {
          DrainAnswered(s1);
        }
      } else {
        DrainNothing(s1);
        StopHookAsks(cfg, PushLate(Drain(s1), w.late), w, kept);
        AnsweredByEntries(s1, PushLate(Drain(s1), w.late));
      }
    }
  }

  lemma DrainNothing(s: State)
    requires s.inbox.pending == []
    ensures Drain(s).entries == s.entries
  {
  }

  lemma AnsweredByEntries(s: State, s1: State)
    requires s1.entries == s.entries
    ensures Answered(s) <==> Answered(s1)
  {
  }

  lemma DispatchAsks(s: State, w: World, calls: seq<CallId>)
    ensures AllReady(Dispatch(s, w, calls).trace) <==> AllReady(s.trace)
    ensures Dispatch(s, w, calls).entries == s.entries
  {
    hide AllReady, Tools, Reached;
    Law();
  }

  lemma CollectAsks(s: State, w: World, calls: seq<CallId>)
    ensures var s1 := Collect(s, w, calls);
            && (AllReady(s1.trace) <==> AllReady(s.trace)) && s1.cancelled == s.cancelled
            && (TailOf(s.entries) == ReplyTail(calls) && !s.cancelled ==> Ready(s1.entries))
  {
    hide AllReady, Flush, Drain, Push, TailFrom;
    Law();
    var results := ToolResults(calls[..Reached(w, calls, s.cancelled)]);
    assert !s.cancelled ==> results == ToolResults(calls);
    PushTail(s.entries, results);
    var s1 := s.(entries := Push(s.entries, results), c := s.c.(offset := s.c.offset + |calls|));
    var s2 := Do(s1, ToolFinished(s.c.toolStep));
    FlushAsks(s2);
    DrainAsks(Arrive(FlushIfPending(s2), w.typedBeforeDrain));
  }

  lemma OnCallsAsks(cfg: Config, s: State, w: World, text: string, calls: seq<CallId>)
    ensures Fit(s, OnCalls(cfg, s, w, text, calls))
  {
    hide AllReady, Dispatch, Collect, Chars, Push, TailFrom;
    Law();
    PushTail(s.entries, Assistant(text, calls));
    var s1 := if w.streaming then s else Show(s, Chars(text));
    var s2 := s1.(entries := Push(s.entries, Assistant(text, calls)));
    DispatchAsks(s2, w, calls);
    CollectAsks(Dispatch(s2, w, calls), w, calls);
  }

  lemma AccountAsks(s: State, usage: Usage)
    ensures AllReady(Account(s, usage).trace) <==> AllReady(s.trace)
    ensures Account(s, usage).entries == s.entries
  {
    hide AllReady;
    Law();
  }

  /** One trip sends what the boundary leaves, and nothing else. */
  lemma PassAsks(cfg: Config, s: State, w: World)
    ensures var g, r := Boundary(s, w), Pass(cfg, s, w);
            && (AllReady(r.s.trace) <==> AllReady(s.trace) && (g.Go? ==> Ready(g.s.entries)))
            && (g.Go? && Ready(g.s.entries) && r.Again? ==> Sane(r.s))
  {
    hide AllReady, Ready, Boundary, ModelStep, OnDone, OnCalls, OnError, Account;
    BoundaryAsks(s, w);
    match Boundary(s, w) {
      case Halt(_) =>
      case Abandon(_) =>
      case Go(s1) =>
        ModelStepAsks(s1, w);
        var (s2, reply) := ModelStep(s1, w);
        match reply {
          case Done(text, leaked, cleaned, usage, finish) =>
            AccountAsks(s2.(finish := finish), usage);
            OnDoneAsks(cfg, Account(s2.(finish := finish), usage), w, text, leaked, cleaned);
          case Calls(text, calls, usage) =>
            AccountAsks(s2, usage);
            OnCallsAsks(cfg, Account(s2, usage), w, text, calls);
          case Failed(e) =>
            OnErrorAsks(cfg, s2, e);
        }
    }
  }

  // ------------------------------------------------------------- runs

  /** Some trip of the run installs a conversation that cannot be sent. */
  predicate Spoiled(cfg: Config, s: State, script: seq<World>)
    decreases |script|
  {
    script != [] &&
    (Spoils(s, script[0]) ||
     (var r := Pass(cfg, s, script[0]);
      r.Again? && Spoiled(cfg, r.s, script[1..])))
  }

  lemma EpilogueAsks(s: State, outcome: Outcome, w: World)
    ensures AllReady(Epilogue(s, outcome, w).trace) <==> AllReady(s.trace)
  {
    hide AllReady, Flush, ContinueFor;
    Law();
    FlushAsks(SetAccepting(Arrive(s, w.typedLeaving), false));
  }

  /** A request once sent stays sent. */
  lemma {:induction false} AsksRemain(cfg: Config, s: State, script: seq<World>)
    ensures AllReady(RunOver(cfg, s, script).s.trace) ==> AllReady(s.trace)
    decreases |script|
  {
    hide AllReady, Pass, Epilogue;
    if script != [] {
      PassAsks(cfg, s, script[0]);
      match Pass(cfg, s, script[0]) {
        case Again(s1, _) => AsksRemain(cfg, s1, script[1..]);
        case Leave(s1, outcome) => EpilogueAsks(s1, outcome, script[0]);
        case Drop(_) =>
      }
    }
  }

  lemma BoundaryLeads(cfg: Config, s: State, w: World)
    ensures Pass(cfg, s, w).Again? ==> Boundary(s, w).Go?
  {
    hide Boundary, ModelStep, Answer;
  }

  lemma {:induction false} RunAsks(cfg: Config, s: State, script: seq<World>)
    requires Sane(s)
    ensures AllReady(RunOver(cfg, s, script).s.trace) <==> AllReady(s.trace) && !Spoiled(cfg, s, script)
    decreases |script|
  {
    hide AllReady, Pass, Boundary, Epilogue, Spoils, Sane;
    if script != [] {
      BoundaryAsks(s, script[0]);
      BoundaryLeads(cfg, s, script[0]);
      PassAsks(cfg, s, script[0]);
      match Pass(cfg, s, script[0]) {
        case Again(s1, _) =>
          if Spoils(s, script[0]) {
            AsksRemain(cfg, s1, script[1..]);
          } else {
            RunAsks(cfg, s1, script[1..]);
          }
        case Leave(s1, outcome) => EpilogueAsks(s1, outcome, script[0]);
        case Drop(_) =>
      }
    }
  }

  /** The loop's own LLM summary is sent as it is, with an assistant entry at the end. */
  lemma SummaryIsSent(cfg: Config, s: State, w: World)
    requires Ready(s.entries) && !s.cancelled && !w.cancelBefore && w.compaction.Summarised?
    ensures !AllReady(Pass(cfg, s, w).s.trace)
  {
    hide AllReady, Ready, Pass, Boundary;
    BoundaryAsks(s, w);
    PassAsks(cfg, s, w);
  }

  /** From a conversation fit to send, a run sends only grammatical requests, unless and only unless it is spoiled. */
  lemma RequestsGrammatical(
    cfg: Config, entries: seq<Entry>, waiting: seq<Said>, goal: Option<Goal>, left: Option<ContinueKind>,
    script: seq<World>)
    requires Grammatical(entries)
    ensures var s := Fresh(entries, waiting, goal, left);
            var t := RunOver(cfg, s, script).s.trace;
            (forall i :: 0 <= i < |t| && t[i].Asked? ==> Grammatical(t[i].entries)) <==> !Spoiled(cfg, s, script)
  {
    hide Grammatical, Ready, RunOver, Spoiled;
    var s := Fresh(entries, waiting, goal, left);
    ReadyIffGrammatical(entries);
    RunAsks(cfg, s, script);
    var t := RunOver(cfg, s, script).s.trace;
    forall i | 0 <= i < |t| && t[i].Asked? ensures Ready(t[i].entries) <==> Grammatical(t[i].entries) {
      ReadyIffGrammatical(t[i].entries);
    }
    assert AllReady(s.trace);
  }
}
