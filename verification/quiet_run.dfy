/** A run nobody interrupts keeps everything the assistant does for one card, written when the run ends. */
module QuietRun {
  import opened Transcript
  import opened Options
  import opened Retry
  import opened AgentLoop
  import Journal
  import SessionLog

  function Cards(t: Trace): nat {
    if t == [] then 0
    else Cards(t[..|t| - 1]) + if t[|t| - 1].Wrote? && t[|t| - 1].line.AssistantCard? then 1 else 0
  }

  lemma Law()
    ensures forall t, a {:trigger Then(t, a)} ::
              Cards(Then(t, a)) == Cards(t) + if a.Wrote? && a.line.AssistantCard? then 1 else 0
  {
    forall t: Trace, a: Act
      ensures Cards(Then(t, a)) == Cards(t) + if a.Wrote? && a.line.AssistantCard? then 1 else 0
    {
      assert (t + [a])[..|t|] == t;
    }
  }

  /** Nobody types, nobody sets a goal, and no context is replaced. */
  predicate Quiet(w: World) {
    Journal.TypedOnce(w) == 0 && w.goalEdit.KeepGoal? && SessionLog.Calm(w)
  }

  predicate Unwritten(s: State, n: nat) {
    Cards(s.trace) == n && s.inbox.pending == [] && s.inbox.accepting && s.goal.None?
  }

  lemma DrainUnwritten(s: State, n: nat)
    requires Cards(s.trace) == n && s.inbox.pending == []
    ensures var s1 := Drain(s);
            && Cards(s1.trace) == n && s1.inbox.pending == [] && s1.inbox.accepting == s.inbox.accepting
            && s1.goal == s.goal && s1.seg == s.seg && s1.cancelled == s.cancelled
  {
  }

  lemma {:induction false} AskUnwritten(t: Trace, es: seq<Entry>, a: Attempts, k: nat)
    requires k <= MAX_MODEL_RETRIES
    ensures Cards(AskTrace(t, es, a, k)) == Cards(t)
    decreases MAX_MODEL_RETRIES - k
  {
    hide RetryDelay, Cards;
    Law();
    if Retries(a, k) && !a[k].cancelled {
      AskUnwritten(Then(Then(t, Asked(es)), Retrying(k + 1, RetryDelay(k + 1))), es, a, k + 1);
    }
  }

  lemma BoundaryUnwritten(s: State, w: World, n: nat)
    requires Unwritten(s, n) && Quiet(w)
    ensures Unwritten(Boundary(s, w).s, n)
  {
    hide Cards, Drain, Settle;
    assert s.inbox.pending + w.typedBefore == [];
    DrainUnwritten(Arrive(s, w.typedBefore).(cancelled := s.cancelled || w.cancelBefore), n);
  }

  lemma ModelStepUnwritten(s: State, w: World, n: nat)
    requires Unwritten(s, n) && Quiet(w)
    ensures Unwritten(ModelStep(s, w).0, n) && ModelStep(s, w).1 == Settle(w.attempts, 0).reply
  {
    hide Cards, AskTrace, AskAtoms, Settle, SessionLog.Calm;
    Law();
    var s1 := StartTurn(s);
    AskUnwritten(s1.trace, s1.entries, w.attempts, 0);
  }

  lemma AccountUnwritten(s: State, usage: Usage, n: nat)
    requires Unwritten(s, n)
    ensures Unwritten(Account(s, usage), n)
  {
    hide Cards;
    Law();
  }

  lemma CloseTurnUnwritten(s: State, w: World, text: string, n: nat)
    requires Unwritten(s, n) && Quiet(w)
    ensures var s1 := CloseTurn(s, w, text, text);
            && Cards(s1.trace) == n && s1.inbox.pending == [] && s1.goal.None?
            && s1.seg == s.seg.(final := text)
  {
    hide Cards, Push, Flush, SessionLog.Calm;
    Law();
  }

  lemma OnDoneUnwritten(cfg: Config, s: State, w: World, text: string, cleaned: string, n: nat)
    requires Unwritten(s, n) && Quiet(w) && !cfg.hasHooks
    ensures var r := OnDone(cfg, s, w, text, false, cleaned);
            && r.Leave? && r.outcome == Success(text)
            && Cards(r.s.trace) == n && (text != "" ==> Card(r.s.seg) != [])
  {
    hide Cards, CloseTurn, Drain, Card, SessionLog.Calm;
    CloseTurnUnwritten(s, w, text, n);
    var s1 := CloseTurn(s, w, text, text);
    DrainUnwritten(s1, n);
    TextOnCard(s1.seg);
    assert [] + w.late == [];
  }

  lemma TextOnCard(seg: Segment)
    ensures seg.final != "" ==> Card(seg) != []
  {
    if seg.final != "" {
      assert Chars(seg.final)[0] == Ch(seg.final[0]);
      assert |seg.atoms + Chars(seg.final)| > 0;
    }
  }

  lemma DispatchUnwritten(s: State, w: World, calls: seq<CallId>, n: nat)
    requires Unwritten(s, n) && Quiet(w)
    ensures Unwritten(Dispatch(s, w, calls), n)
  {
    hide Cards, Tools, Reached, SessionLog.Calm;
    Law();
  }

  lemma CollectUnwritten(s: State, w: World, calls: seq<CallId>, n: nat)
    requires Unwritten(s, n) && Quiet(w)
    ensures Unwritten(Collect(s, w, calls), n)
  {
    hide Cards, Drain, Flush, Push, Reached, SessionLog.Calm;
    Law();
    var results := ToolResults(calls[..Reached(w, calls, s.cancelled)]);
    var s1 := Do(s.(entries := Push(s.entries, results), c := s.c.(offset := s.c.offset + |calls|)),
                 ToolFinished(s.c.toolStep));
    assert s1.inbox.pending + w.typedBeforeDrain == [];
    DrainUnwritten(Arrive(s1, w.typedBeforeDrain), n);
  }

  lemma OnCallsUnwritten(cfg: Config, s: State, w: World, text: string, calls: seq<CallId>, n: nat)
    requires Unwritten(s, n) && Quiet(w)
    ensures var r := OnCalls(cfg, s, w, text, calls);
            && (r.Again? ==> Unwritten(r.s, n))
            && (r.Leave? ==> r.outcome.Failure? && Cards(r.s.trace) == n && r.s.goal.None?)
            && !r.Drop?
  {
    hide Cards, Dispatch, Collect, Push, Chars, Quiet;
    Law();
    var s1 := if w.streaming then s else Show(s, Chars(text));
    var s2 := s1.(entries := Push(s.entries, Assistant(text, calls)));
    DispatchUnwritten(s2, w, calls, n);
    CollectUnwritten(Dispatch(s2, w, calls), w, calls, n);
  }

  lemma OnErrorUnwritten(cfg: Config, s: State, e: ClientError, n: nat)
    requires Cards(s.trace) == n && !e.ContextTooLong()
    ensures var r := OnError(cfg, s, e); r.Leave? && r.outcome == Failure(e) && Cards(r.s.trace) == n
  {
    hide Cards, Install, EmergencyReset;
    Law();
  }

  lemma PassUnwritten(cfg: Config, s: State, w: World, n: nat)
    requires Unwritten(s, n) && Quiet(w) && !cfg.hasHooks
    ensures var r := Pass(cfg, s, w);
            && (if r.Again? then Unwritten(r.s, n) else Cards(r.s.trace) == n)
            && (r.Leave? && r.outcome.Success? && r.outcome.text != "" ==> Card(r.s.seg) != [])
            && (r.Leave? && r.outcome == Failure(Suspended) ==> r.s.goal.None?)
  {
    hide Cards, Card, Boundary, ModelStep, OnDone, OnCalls, OnError, Account, Settle;
    BoundaryUnwritten(s, w, n);
    match Boundary(s, w) {
      case Halt(_) =>
      case Abandon(_) =>
      case Go(s1) =>
        ModelStepUnwritten(s1, w, n);
        var (s2, reply) := ModelStep(s1, w);
        match reply {
          case Done(text, leaked, cleaned, usage, finish) =>
            var s3 := s2.(finish := finish);
            AccountUnwritten(s3, usage, n);
            OnDoneUnwritten(cfg, Account(s3, usage), w, text, cleaned, n);
          case Calls(text, calls, usage) =>
            AccountUnwritten(s2, usage, n);
            OnCallsUnwritten(cfg, Account(s2, usage), w, text, calls, n);
          case Failed(e) =>
            OnErrorUnwritten(cfg, s2, e, n);
        }
    }
  }

  lemma EpilogueWrites(s: State, outcome: Outcome, w: World)
    ensures Cards(Epilogue(s, outcome, w).trace) == Cards(s.trace) + if Card(s.seg) != [] then 1 else 0
    ensures Epilogue(s, outcome, w).goal == s.goal
  {
    hide Cards, Card, ContinueFor;
    Law();
  }

  lemma {:induction false} RunWrites(cfg: Config, s: State, script: seq<World>, n: nat)
    requires Unwritten(s, n) && !cfg.hasHooks
    requires forall i :: 0 <= i < |script| ==> Quiet(script[i])
    ensures var r := RunOver(cfg, s, script);
            && (if r.Ended? then n <= Cards(r.s.trace) <= n + 1 else Cards(r.s.trace) == n)
            && (r.Ended? && r.outcome.Success? && r.outcome.text != "" ==> Cards(r.s.trace) == n + 1)
            && (r.Ended? && r.outcome == Failure(Suspended) ==> r.s.goal.None?)
    decreases |script|
  {
    hide Pass, Epilogue, Quiet, Cards, Card;
    if script != [] {
      PassUnwritten(cfg, s, script[0], n);
      match Pass(cfg, s, script[0]) {
        case Again(s1, _) => RunWrites(cfg, s1, script[1..], n);
        case Leave(s1, outcome) => EpilogueWrites(s1, outcome, script[0]);
        case Drop(_) =>
      }
    }
  }

  /** Without input, hook or goal, a run writes no card before it ends, at most one then, and one for any answer. */
  lemma OneCardPerQuietRun(cfg: Config, entries: seq<Entry>, left: Option<ContinueKind>, script: seq<World>)
    requires !cfg.hasHooks && forall i :: 0 <= i < |script| ==> Quiet(script[i])
    ensures var r := RunOver(cfg, Fresh(entries, [], None, left), script);
            && Cards(r.s.trace) <= (if r.Ended? then 1 else 0)
            && (r.Ended? && r.outcome.Success? && r.outcome.text != "" ==> Cards(r.s.trace) == 1)
  {
    hide RunOver, Quiet;
    RunWrites(cfg, Fresh(entries, [], None, left), script, 0);
  }
}
