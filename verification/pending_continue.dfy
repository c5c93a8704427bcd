/** Whether the user is offered to continue: decided once, by how the run ended, and by nothing before. */
module PendingContinue {
  import opened Transcript
  import opened Options
  import opened Retry
  import opened AgentLoop
  import RunPromises

  /** Neither the offer nor the finish reason has been touched. */
  predicate Alone(s: State, s1: State) {
    s1.continueEntry == s.continueEntry && s1.finish == s.finish
  }

  lemma DrainAlone(s: State)
    ensures Alone(s, Drain(s))
  {
    hide WriteUsers, PushUsers;
  }

  lemma FlushAlone(s: State)
    ensures Alone(s, Flush(s))
  {
    hide Card, Then;
  }

  lemma InstallAlone(s: State, es: seq<Entry>)
    ensures Alone(s, Install(s, es))
  {
    hide Flush, Then;
    FlushAlone(s.(entries := es));
  }

  lemma BoundaryAlone(s: State, w: World)
    ensures Alone(s, Boundary(s, w).s)
  {
    hide Drain, Install, Then;
    DrainAlone(Arrive(s, w.typedBefore).(cancelled := s.cancelled || w.cancelBefore));
    var s1 := MaybeSetMarker(Drain(Arrive(s, w.typedBefore).(cancelled := s.cancelled || w.cancelBefore)));
    InstallAlone(s1, SUMMARY);
    if w.compaction.Replaced? {
      InstallAlone(s1, w.compaction.entries);
    }
  }

  lemma ModelStepAlone(s: State, w: World)
    ensures Alone(s, ModelStep(s, w).0) && ModelStep(s, w).1 == Settle(w.attempts, 0).reply
  {
    hide Then, AskTrace, AskAtoms, Settle;
  }

  lemma JudgeAlone(cfg: Config, s: State, w: World, text: string)
    ensures Alone(s, Judge(cfg, s, w, text).s)
  {
    hide Flush, Then, Push;
    FlushAlone(s);
  }

  lemma StopHookAlone(cfg: Config, s: State, w: World, text: string)
    ensures Alone(s, StopHook(cfg, s, w, text).s)
  {
    hide Flush, Then, Push, Judge;
    FlushAlone(s);
    JudgeAlone(cfg, s, w, text);
    JudgeAlone(cfg, Do(Flush(s), Wrote(HookMark)), w, text);
  }

  lemma CloseTurnAlone(s: State, w: World, text: string, cleaned: string)
    ensures Alone(s, CloseTurn(s, w, text, cleaned))
  {
    hide Flush, Then, Push;
    FlushAlone(Do(Do(s.(seg := s.seg.(final := text)), TextDone(text)), TurnFinished(EndTurn)));
  }

  lemma OnDoneAlone(cfg: Config, s: State, w: World, text: string, leaked: bool, cleaned: string)
    ensures Alone(s, OnDone(cfg, s, w, text, leaked, cleaned).s)
  {
    hide CloseTurn, Drain, StopHook, Push, Chars, Then;
    var kept := if leaked then cleaned else text;
    CloseTurnAlone(s, w, text, kept);
    DrainAlone(CloseTurn(s, w, text, kept));
    StopHookAlone(cfg, PushLate(Drain(CloseTurn(s, w, text, kept)), w.late), w, kept);
  }

  lemma CollectAlone(s: State, w: World, calls: seq<CallId>)
    ensures Alone(s, Collect(s, w, calls))
  {
    hide Flush, Drain, Push, Then, Reached;
    var results := ToolResults(calls[..Reached(w, calls, s.cancelled)]);
    var s1 := Do(s.(entries := Push(s.entries, results), c := s.c.(offset := s.c.offset + |calls|)),
                 ToolFinished(s.c.toolStep));
    FlushAlone(s1);
    DrainAlone(Arrive(FlushIfPending(s1), w.typedBeforeDrain));
  }

  lemma OnCallsAlone(cfg: Config, s: State, w: World, text: string, calls: seq<CallId>)
    ensures var r := OnCalls(cfg, s, w, text, calls); Alone(s, r.s) && (r.Leave? ==> r.outcome.Failure?)
  {
    hide Collect, Push, Chars, Tools, Then, Reached;
    var s1 := if w.streaming then s else Show(s, Chars(text));
    var s2 := s1.(entries := Push(s.entries, Assistant(text, calls)));
    CollectAlone(Dispatch(s2, w, calls), w, calls);
  }

  lemma OnErrorAlone(cfg: Config, s: State, e: ClientError)
    ensures var r := OnError(cfg, s, e); Alone(s, r.s) && (r.Leave? ==> r.outcome.Failure?)
  {
    hide Install, EmergencyReset, Then;
    InstallAlone(s.(b := s.b.(resetTried := true)), EmergencyReset(s.entries, cfg.keepRecentTurns));
  }

  /** Only an answer sets the finish reason; a run succeeds only on the answer that set it last. */
  lemma PassAlone(cfg: Config, s: State, w: World)
    ensures var r, reply := Pass(cfg, s, w), Settle(w.attempts, 0).reply;
            && r.s.continueEntry == s.continueEntry
            && (r.Leave? && r.outcome.Success? ==> reply.Done? && r.s.finish == reply.finish)
  {
    hide Boundary, ModelStep, OnDone, OnCalls, OnError, Settle;
    BoundaryAlone(s, w);
    match Boundary(s, w) {
      case Halt(_) =>
      case Abandon(_) =>
      case Go(s1) =>
        ModelStepAlone(s1, w);
        var (s2, reply) := ModelStep(s1, w);
        match reply {
          case Done(text, leaked, cleaned, usage, finish) =>
            OnDoneAlone(cfg, Account(s2.(finish := finish), usage), w, text, leaked, cleaned);
          case Calls(text, calls, usage) =>
            OnCallsAlone(cfg, Account(s2, usage), w, text, calls);
          case Failed(e) =>
            OnErrorAlone(cfg, s2, e);
        }
    }
  }

  lemma EpilogueOffers(s: State, outcome: Outcome, w: World)
    ensures Epilogue(s, outcome, w).continueEntry ==
            if outcome == Failure(Suspended) then s.continueEntry else ContinueFor(outcome, s.finish)
  {
    hide Flush, Then, ContinueFor;
    FlushAlone(SetAccepting(Arrive(s, w.typedLeaving), false));
  }

  /** The finish reasons that call for an offer are all but the ordinary one. */
  predicate Ordinary(reply: Reply) {
    reply.Done? && reply.finish.Stop?
  }

  /**
   What offer stands after a run that made `n` trips of its script and found the offer `left`: nothing to continue
   after an ordinary answer or a cancel; an offer of the matching kind after any other answer or a failure; and the
   old offer while the run sleeps, goes on, or is abandoned.
   */
  predicate Offered(left: Option<ContinueKind>, r: Run, script: seq<World>, n: nat) {
    match r
    case Going(s) => s.continueEntry == left
    case Abandoned(s) => s.continueEntry == left
    case Ended(s, Failure(e)) =>
      if e.Suspended? then s.continueEntry == left
      else if e.Cancelled? then s.continueEntry == None
      else s.continueEntry == Some(NetworkError)
    case Ended(s, Success(_)) =>
      && 0 < n <= |script|
      && var reply := Settle(script[n - 1].attempts, 0).reply;
         && reply.Done?
         && (s.continueEntry == None <==> Ordinary(reply))
         && (s.continueEntry == Some(Truncated) <==> reply.finish == Length)
         && (s.continueEntry == Some(Refused) <==> reply.finish == Refusal)
         && (s.continueEntry == Some(Filtered) <==> reply.finish == ContentFilter)
         && s.continueEntry != Some(NetworkError)
  }

  /** The offer is decided when the run is over, by how it ended. */
  lemma {:induction false} OfferAtTheEnd(cfg: Config, s: State, script: seq<World>)
    ensures Offered(s.continueEntry, RunOver(cfg, s, script), script, RunPromises.Trips(cfg, s, script))
    decreases |script|
  {
    hide Pass, Epilogue, Settle;
    if script != [] {
      PassAlone(cfg, s, script[0]);
      match Pass(cfg, s, script[0]) {
        case Again(s1, _) => OfferAtTheEnd(cfg, s1, script[1..]);
        case Leave(s1, outcome) => EpilogueOffers(s1, outcome, script[0]);
        case Drop(_) =>
      }
    }
  }
}
