/**
 How the session log of a run relates to the conversation the model is sent.

 The log cuts what the assistant says and calls into cards where the transcript
 keeps one entry per reply, so the two are compared by what they have in common:
 the user messages in order, each with everything the assistant did before it.
 */
module SessionLog {
  import opened Transcript
  import opened Options
  import opened Retry
  import opened AgentLoop

  /** User messages with the assistant's output before each, and the output after the last. */
  datatype Reading = Reading(closed: seq<(seq<Atom>, Said)>, open: seq<Atom>)

  const NO_READING := Reading([], [])

  function AddU(r: Reading, said: Said): Reading {
    Reading(r.closed + [(r.open, said)], [])
  }

  function AddA(r: Reading, atoms: seq<Atom>): Reading {
    Reading(r.closed, r.open + atoms)
  }

  function AddUs(r: Reading, said: seq<Said>): Reading
    decreases |said|
  {
    if said == [] then r else AddUs(AddU(r, said[0]), said[1..])
  }

  // What the log says.

  function ReadLine(r: Reading, a: Act): Reading {
    match a
    case Wrote(DrainedUser(said)) => AddU(r, said)
    case Wrote(FeedbackUser(said)) => AddU(r, said)
    case Wrote(AssistantCard(atoms)) => AddA(r, atoms)
    case _ => r
  }

  /** The log as the trace extends it from `base` on. */
  function Logged(base: Reading, t: Trace): Reading {
    if t == [] then base else ReadLine(Logged(base, t[..|t| - 1]), t[|t| - 1])
  }

  // What the conversation says.

  function Hear(r: Reading, e: Entry): Reading {
    match e
    case User(said) => AddU(r, said)
    case Assistant(text, calls) => AddA(r, Chars(text) + Tools(calls))
    case ToolResults(_) => r
  }

  function Spoken(es: seq<Entry>): Reading {
    if es == [] then NO_READING else Hear(Spoken(es[..|es| - 1]), es[|es| - 1])
  }

  lemma Law()
    ensures forall base, t, a {:trigger Logged(base, Then(t, a))} ::
              Logged(base, Then(t, a)) == ReadLine(Logged(base, t), a)
  {
    forall base: Reading, t: Trace, a: Act ensures Logged(base, Then(t, a)) == ReadLine(Logged(base, t), a) {
      assert (t + [a])[..|t|] == t;
    }
  }

  lemma Heard(es: seq<Entry>, e: Entry)
    ensures Spoken(Push(es, e)) == Hear(Spoken(es), e)
  {
    assert (es + [e])[..|es|] == es;
  }

  lemma AddNothing(r: Reading)
    ensures AddA(r, []) == r
  {
    assert r.open + [] == r.open;
  }

  // ------------------------------------------------------------- small steps

  lemma {:induction false} WriteUsersLogged(base: Reading, t: Trace, drained: seq<Said>)
    ensures Logged(base, WriteUsers(t, drained)) == AddUs(Logged(base, t), drained)
    decreases |drained|
  {
    hide Logged;
    Law();
    if drained != [] {
      WriteUsersLogged(base, Then(t, Wrote(DrainedUser(drained[0]))), drained[1..]);
    }
  }

  lemma {:induction false} PushUsersHeard(es: seq<Entry>, drained: seq<Said>)
    ensures Spoken(PushUsers(es, drained)) == AddUs(Spoken(es), drained)
    decreases |drained|
  {
    hide Spoken, Push;
    if drained != [] {
      Heard(es, User(drained[0]));
      PushUsersHeard(Push(es, User(drained[0])), drained[1..]);
    }
  }

  lemma DrainLogged(base: Reading, s: State)
    ensures var s1 := Drain(s);
            && Logged(base, s1.trace) == AddUs(Logged(base, s.trace), s.inbox.pending)
            && Spoken(s1.entries) == AddUs(Spoken(s.entries), s.inbox.pending)
            && s1.seg == s.seg && s1.cancelled == s.cancelled && s1.inbox.pending == []
            && s1.inbox.accepting == s.inbox.accepting && s1.goal == s.goal && s1.b == s.b
  {
    WriteUsersLogged(base, s.trace, s.inbox.pending);
    PushUsersHeard(s.entries, s.inbox.pending);
  }

  lemma FlushLogged(base: Reading, s: State)
    ensures var s1 := Flush(s);
            && Logged(base, s1.trace) == AddA(Logged(base, s.trace), Card(s.seg))
            && s1.seg == NOTHING && s1.entries == s.entries && s1.inbox == s.inbox
            && s1.cancelled == s.cancelled && s1.goal == s.goal && s1.b == s.b
  {
    hide Card, Logged;
    Law();
    AddNothing(Logged(base, s.trace));
  }

  lemma FeedbackLogged(base: Reading, s: State, said: Said)
    ensures var s1 := Feedback(s, said);
            && Logged(base, s1.trace) == AddU(Logged(base, s.trace), said)
            && Spoken(s1.entries) == AddU(Spoken(s.entries), said)
            && s1.seg == s.seg && s1.inbox == s.inbox && s1.cancelled == s.cancelled
  {
    hide Logged, Push, Spoken;
    Law();
    Heard(s.entries, User(said));
  }

  lemma {:induction false} AskLogged(base: Reading, t: Trace, es: seq<Entry>, a: Attempts, k: nat)
    requires k <= MAX_MODEL_RETRIES
    ensures Logged(base, AskTrace(t, es, a, k)) == Logged(base, t)
    decreases MAX_MODEL_RETRIES - k
  {
    hide RetryDelay, Logged;
    Law();
    if Retries(a, k) && !a[k].cancelled {
      AskLogged(base, Then(Then(t, Asked(es)), Retrying(k + 1, RetryDelay(k + 1))), es, a, k + 1);
    }
  }

  // ------------------------------------------------------------- two readings side by side

  /** What is logged, what is still to be logged, and what the conversation says. */
  datatype Pages = Pages(logged: Reading, card: seq<Atom>, said: Reading) {
    function Log(): Reading {
      AddA(logged, card)
    }

    predicate Aligned() {
      Log() == said
    }

    /** Both sides have the same number of user messages, but not with the same output before each. */
    predicate Crossed() {
      |logged.closed| == |said.closed| && logged.closed != said.closed
    }

    /** Output after the last user message is missing from the log. */
    predicate Short() {
      |logged.closed| == |said.closed| && |logged.open| + |card| < |said.open|
    }
  }

  function PagesOf(base: Reading, s: State): Pages {
    Pages(Logged(base, s.trace), Card(s.seg), Spoken(s.entries))
  }

  /** User messages reach both sides, whatever output is still waiting. */
  function Hand(p: Pages, said: seq<Said>): Pages {
    Pages(AddUs(p.logged, said), p.card, AddUs(p.said, said))
  }

  /** A reply `spoken` that leaves `card` to be logged. */
  function Answered(p: Pages, card: seq<Atom>, spoken: seq<Atom>): Pages {
    Pages(p.logged, card, AddA(p.said, spoken))
  }

  function File(p: Pages): Pages {
    Pages(p.Log(), [], p.said)
  }

  /** The flush before a drain sees only the messages that are there already; the drain takes the others too. */
  function Deliver(p: Pages, seen: seq<Said>, unseen: seq<Said>): Pages {
    Hand(if seen != [] then File(p) else p, seen + unseen)
  }

  lemma {:induction false} AddUsGrows(r: Reading, said: seq<Said>)
    ensures r.closed <= AddUs(r, said).closed && |AddUs(r, said).closed| == |r.closed| + |said|
    ensures said == [] ==> AddUs(r, said) == r
    ensures said != [] ==> AddUs(r, said).closed[|r.closed|] == (r.open, said[0])
    decreases |said|
  {
    if said != [] {
      var r1 := AddU(r, said[0]);
      AddUsGrows(r1, said[1..]);
      assert AddUs(r, said).closed[|r.closed|] == r1.closed[|r.closed|];
    }
  }

  lemma CrossedStays(p: Pages, said: seq<Said>)
    requires p.Crossed()
    ensures Hand(p, said).Crossed() && File(p).Crossed()
  {
    hide AddUs;
    AddUsGrows(p.logged, said);
    AddUsGrows(p.said, said);
    var q := Hand(p, said);
    assert q.logged.closed[..|p.logged.closed|] == p.logged.closed;
    assert q.said.closed[..|p.said.closed|] == p.said.closed;
  }

  lemma ShortHanded(p: Pages, said: seq<Said>)
    requires p.Short()
    ensures if said == [] then Hand(p, said) == p else Hand(p, said).Crossed()
  {
    hide AddUs;
    AddUsGrows(p.logged, said);
    AddUsGrows(p.said, said);
    if said != [] {
      var q, k := Hand(p, said), |p.logged.closed|;
      assert q.logged.closed[k].0 == p.logged.open && q.said.closed[k].0 == p.said.open;
    }
  }

  /** Messages handed over while output is waiting, and only those, overtake it. */
  lemma AlignedHanded(p: Pages, said: seq<Said>)
    requires p.Aligned()
    ensures var q := Hand(p, said);
            if said == [] || p.card == [] then q.Aligned() else q.Crossed()
  {
    hide AddUs;
    AddUsGrows(p.logged, said);
    AddUsGrows(p.said, said);
    var q := Hand(p, said);
    if said != [] && p.card != [] {
      var k := |p.logged.closed|;
      assert q.logged.closed[k].0 == p.logged.open && q.said.closed[k].0 == p.said.open;
    } else if p.card == [] {
      AddNothing(p.logged);
      AddNothing(q.logged);
    }
  }

  /** How the sides stand; `clean` says that no old final text waits in the accumulator. */
  predicate Stands(p: Pages, clean: bool, ok: bool) {
    if ok then clean && p.Aligned() else p.Crossed() || (clean && p.Short())
  }

  lemma HandStands(p: Pages, clean: bool, ok: bool, said: seq<Said>)
    requires Stands(p, clean, ok)
    ensures var still := ok && (said == [] || p.card == []);
            && Stands(Hand(p, said), clean, still)
            && (!still && said != [] ==> Hand(p, said).Crossed())
  {
    hide AddUs;
    if p.Crossed() {
      CrossedStays(p, said);
    } else if ok {
      AlignedHanded(p, said);
    } else {
      ShortHanded(p, said);
    }
  }

  /** A reply is logged in full, or its text has been left off the card. */
  lemma AnsweredStands(p: Pages, clean: bool, ok: bool, card: seq<Atom>, spoken: seq<Atom>)
    requires Stands(p, clean, ok)
    requires clean ==> card == p.card + spoken || card == p.card
    ensures Stands(Answered(p, card, spoken), clean, ok && card == p.card + spoken)
  {
    if ok && card == p.card + spoken {
      assert p.logged.open + card == p.said.open + spoken;
    }
  }

  lemma DeliverStands(p: Pages, clean: bool, ok: bool, seen: seq<Said>, unseen: seq<Said>)
    requires Stands(p, clean, ok)
    ensures var still := ok && (unseen == [] || seen != [] || p.card == []);
            && Stands(Deliver(p, seen, unseen), clean, still)
            && (!still && seen + unseen != [] ==> Deliver(p, seen, unseen).Crossed())
  {
    hide AddUs;
    if seen != [] {
      FileStands(p, clean, ok);
      HandStands(File(p), clean, ok, seen + unseen);
    } else {
      assert seen + unseen == unseen;
      HandStands(p, clean, ok, unseen);
    }
  }

  lemma FileStands(p: Pages, clean: bool, ok: bool)
    requires Stands(p, clean, ok)
    ensures Stands(File(p), clean, ok) && Stands(File(p), true, ok) && File(p).Log() == p.Log()
  {
    AddNothing(p.Log());
  }

  // ------------------------------------------------------------- stages

  lemma BoundaryPages(base: Reading, s: State, w: World)
    requires s.inbox.accepting && !w.compaction.Summarised? && !w.compaction.Replaced?
    ensures var s1 := Boundary(s, w).s;
            && PagesOf(base, s1) == Hand(PagesOf(base, s), s.inbox.pending + w.typedBefore)
            && s1.seg == s.seg && s1.inbox.pending == [] && s1.inbox.accepting
            && (Boundary(s, w).Go? ==> !s1.cancelled) && (Boundary(s, w).Halt? <==> s1.cancelled)
  {
    hide Logged, Spoken, Drain, Card, AddUs;
    Law();
    var s1 := Arrive(s, w.typedBefore).(cancelled := s.cancelled || w.cancelBefore);
    DrainLogged(base, s1);
  }

  lemma ModelStepPages(base: Reading, s: State, w: World)
    requires s.inbox.accepting
    ensures var (s1, reply) := ModelStep(s, w);
            && Logged(base, s1.trace) == Logged(base, s.trace) && s1.entries == s.entries
            && s1.seg == Segment(s.seg.atoms + (if w.streaming then AskAtoms(w.attempts, 0) else []), s.seg.final)
            && s1.inbox.pending == s.inbox.pending + w.typedDuringModel && s1.inbox.accepting
            && reply == Settle(w.attempts, 0).reply
  {
    hide Logged, AskTrace, AskAtoms, Settle;
    Law();
    var s1 := StartTurn(s);
    AskLogged(base, s1.trace, s1.entries, w.attempts, 0);
    assert s.seg.atoms + [] == s.seg.atoms;
  }

  lemma AccountPages(base: Reading, s: State, usage: Usage)
    ensures var s1 := Account(s, usage);
            && Logged(base, s1.trace) == Logged(base, s.trace) && s1.entries == s.entries
            && s1.seg == s.seg && s1.inbox == s.inbox && s1.cancelled == s.cancelled
  {
    hide Logged;
    Law();
  }

  /** The answer ends: its text may be left off the card, and the inbox is emptied. */
  lemma CloseTurnPages(base: Reading, s: State, w: World, text: string)
    requires s.inbox.accepting
    ensures var s1 := Drain(CloseTurn(s, w, text, text));
            var p := Answered(PagesOf(base, s), Card(Segment(s.seg.atoms, text)), Chars(text) + Tools([]));
            && PagesOf(base, s1) == Deliver(p, s.inbox.pending, w.typedWhileClosing)
            && s1.inbox.pending == [] && !s1.inbox.accepting
            && (s1.seg == if s.inbox.pending != [] then NOTHING else Segment(s.seg.atoms, text))
            && CloseTurn(s, w, text, text).inbox.pending == s.inbox.pending + w.typedWhileClosing
  {
    hide Logged, Spoken, Drain, Card, AddUs, Push, Chars, Tools, Flush;
    Law();
    var s1 := Do(Do(s.(seg := s.seg.(final := text)), TextDone(text)), TurnFinished(EndTurn));
    FlushLogged(base, s1);
    Heard(s.entries, Assistant(text, []));
    DrainLogged(base, CloseTurn(s, w, text, text));
    CardOfNothing();
  }

  lemma CardOfNothing()
    ensures Card(NOTHING) == []
  {
  }

  /** A message written once the card is filed is in its place. */
  lemma PromptStands(base: Reading, s: State, said: Said, clean: bool, ok: bool)
    requires Stands(PagesOf(base, s), clean, ok) && s.seg == NOTHING
    ensures Stands(PagesOf(base, Feedback(s, said)), true, ok) && Feedback(s, said).seg == NOTHING
  {
    hide Logged, Spoken, Feedback, Card, AddUs;
    FeedbackLogged(base, s, said);
    CardOfNothing();
    var p := PagesOf(base, s);
    FileStands(p, clean, ok);
    AddNothing(p.logged);
    HandOne(p, said);
    HandStands(p, true, ok, [said]);
  }

  lemma HandOne(p: Pages, said: Said)
    ensures Hand(p, [said]) == Pages(AddU(p.logged, said), p.card, AddU(p.said, said))
  {
    assert [said][1..] == [];
    AddUsGrows(AddU(p.logged, said), []);
    AddUsGrows(AddU(p.said, said), []);
  }

  lemma FlushStands(base: Reading, s: State, clean: bool, ok: bool)
    requires Stands(PagesOf(base, s), clean, ok)
    ensures Stands(PagesOf(base, Flush(s)), true, ok)
  {
    hide Logged, Spoken, Card, Flush;
    FlushLogged(base, s);
    CardOfNothing();
    FileStands(PagesOf(base, s), clean, ok);
  }

  lemma PersistStands(base: Reading, s: State, condition: string, reason: string, ok: bool)
    requires Stands(PagesOf(base, s), true, ok) && s.seg == NOTHING
    ensures var s1 := Persist(s, condition, reason);
            Stands(PagesOf(base, s1), true, ok) && s1.seg == NOTHING && s1.inbox.accepting
  {
    hide Logged, Spoken, Card, Feedback, Stands;
    Law();
    var n := s.b.goals + 1;
    var s1 := s.(b := s.b.(goals := n), goal := Some(Goal(condition, n, false)));
    var s2 := Do(Do(s1, Wrote(GoalMark(Progress, n))), GoalProgressed(n));
    assert PagesOf(base, s2) == PagesOf(base, s);
    PromptStands(base, s2, GoalFeedback(reason), true, ok);
  }

  /** Once the inbox is empty, hooks and the judge file the card before they say anything. */
  predicate Upheld(base: Reading, r: Trip, clean: bool, ok: bool) {
    match r
    case Again(s, _) => Stands(PagesOf(base, s), true, ok) && s.seg == NOTHING && s.inbox.accepting
    case Leave(s, _) => Stands(PagesOf(base, s), clean, ok) || Stands(PagesOf(base, s), true, ok)
    case Drop(_) => false
  }

  lemma ConcludePages(base: Reading, s: State, kind: MarkKind, a: Act)
    requires a.GoalAchieved? || a.GoalImpossible?
    ensures PagesOf(base, Conclude(s, kind, a)) == PagesOf(base, s)
  {
    hide Logged, Card;
    Law();
  }

  lemma JudgeUpholds(base: Reading, cfg: Config, s: State, w: World, text: string, clean: bool, ok: bool)
    requires Stands(PagesOf(base, s), clean, ok)
    ensures Upheld(base, Judge(cfg, s, w, text), clean, ok)
  {
    hide Logged, Spoken, Flush, Card, Persist, Conclude, Stands;
    FlushStands(base, s, clean, ok);
    FlushLogged(base, s);
    if s.goal.Some? && cfg.hasJudge {
      var s1 := Flush(s).(cancelled := s.cancelled || w.cancelJudge);
      match w.verdict {
        case IsAchieved => ConcludePages(base, s1, Achieved, GoalAchieved);
        case IsImpossible => ConcludePages(base, s1, Impossible, GoalImpossible);
        case NotYet(reason) => PersistStands(base, s1, s.goal.value.condition, reason, ok);
      }
    }
  }

  lemma StopHookUpholds(base: Reading, cfg: Config, s: State, w: World, text: string, clean: bool, ok: bool)
    requires Stands(PagesOf(base, s), clean, ok)
    ensures Upheld(base, StopHook(cfg, s, w, text), clean, ok)
  {
    hide Logged, Spoken, Flush, Card, Feedback, Judge, Stands;
    if cfg.hasHooks && s.b.hooks < MAX_STOP_INJECTIONS {
      Law();
      FlushStands(base, s, clean, ok);
      FlushLogged(base, s);
      var s1 := Do(Flush(s), Wrote(HookMark));
      assert PagesOf(base, s1) == PagesOf(base, Flush(s));
      if w.hook.InjectFollowup? && w.hook.reminder != "" {
        PromptStands(base, s1.(b := s.b.(hooks := s.b.hooks + 1)), HookFeedback(w.hook.reminder), true, ok);
      } else {
        JudgeUpholds(base, cfg, s1, w, text, true, ok);
      }
    } else {
      JudgeUpholds(base, cfg, s, w, text, clean, ok);
    }
  }

  lemma CollectPages(base: Reading, s: State, w: World, calls: seq<CallId>)
    requires s.inbox.accepting
    ensures var s1 := Collect(s, w, calls);
            && PagesOf(base, s1) == Deliver(PagesOf(base, s), s.inbox.pending, w.typedBeforeDrain)
            && s1.inbox.pending == [] && s1.inbox.accepting && s1.cancelled == s.cancelled
            && (s1.seg == if s.inbox.pending != [] then NOTHING else s.seg)
  {
    hide Logged, Spoken, Drain, Card, AddUs, Push, Flush, Reached;
    Law();
    var results := ToolResults(calls[..Reached(w, calls, s.cancelled)]);
    Heard(s.entries, results);
    var s1 := s.(entries := Push(s.entries, results), c := s.c.(offset := s.c.offset + |calls|));
    var s2 := Do(s1, ToolFinished(s.c.toolStep));
    FlushLogged(base, s2);
    DrainLogged(base, Arrive(FlushIfPending(s2), w.typedBeforeDrain));
    CardOfNothing();
  }

  lemma AllReached(w: World, calls: seq<CallId>)
    ensures calls[..Reached(w, calls, false)] == calls
  {
  }

  lemma DispatchPages(base: Reading, s: State, w: World, calls: seq<CallId>)
    requires s.inbox.accepting
    ensures var s1 := Dispatch(s, w, calls);
            && Logged(base, s1.trace) == Logged(base, s.trace) && s1.entries == s.entries
            && s1.inbox.pending == s.inbox.pending + w.typedDuringTools && s1.inbox.accepting
            && (!s1.cancelled ==>
                 s1.seg == if w.streaming then s.seg else Segment(s.seg.atoms + Tools(calls), s.seg.final))
  {
    hide Logged, Tools, Reached;
    Law();
    AllReached(w, calls);
  }

  /** A batch that runs to its end: the whole reply is waiting to be logged, then the inbox is emptied. */
  lemma OnCallsPages(base: Reading, cfg: Config, s: State, w: World, text: string, calls: seq<CallId>)
    requires s.inbox.accepting
    ensures var r := OnCalls(cfg, s, w, text, calls);
            var spoken := Chars(text) + Tools(calls);
            var shown := if w.streaming then s.seg else Segment(s.seg.atoms + spoken, s.seg.final);
            var seen := s.inbox.pending + w.typedDuringTools;
            r.Again? || (r.Leave? && r.outcome == Failure(Suspended)) ==>
              && (!r.s.cancelled ==>
                   PagesOf(base, r.s)
                   == Deliver(Answered(PagesOf(base, s), Card(shown), spoken), seen, w.typedBeforeDrain)
                   && (r.s.seg == if seen != [] then NOTHING else shown))
              && r.s.inbox.pending == [] && r.s.inbox.accepting
  {
    hide Logged, Spoken, Card, Push, Chars, Tools, Dispatch, Collect, Deliver;
    Law();
    Heard(s.entries, Assistant(text, calls));
    var s1 := if w.streaming then s else Show(s, Chars(text));
    var s2 := s1.(entries := Push(s.entries, Assistant(text, calls)));
    DispatchPages(base, s2, w, calls);
    CollectPages(base, Dispatch(s2, w, calls), w, calls);
    assert (s.seg.atoms + Chars(text)) + Tools(calls) == s.seg.atoms + (Chars(text) + Tools(calls));
  }

  // ------------------------------------------------------------- one trip

  /** The trip replaces no context, recovers no leak, and no failed call had shown text before it was retried. */
  predicate Calm(w: World) {
    var r := Settle(w.attempts, 0);
    && !w.compaction.Summarised? && !w.compaction.Replaced?
    && (r.reply.Done? ==> !r.reply.leaked)
    && (r.reply.Failed? ==> !r.reply.error.ContextTooLong())
    && (forall i :: 0 <= i < r.calls - 1 ==> w.attempts[i].partial == "")
  }

  /**
   The trip logs everything in order: no message is drained while output drained past it is still waiting,
   and an unstreamed answer does not repeat the end of the text before it.
   */
  predicate InStep(s: State, w: World) {
    && (s.inbox.pending + w.typedBefore == [] || s.seg.atoms == [])
    && match Settle(w.attempts, 0).reply
       case Done(text, _, _, _, _) =>
         && (w.streaming || text == "" || !EndsWith(TextIn(s.seg.atoms), text))
         && (w.typedWhileClosing == [] || w.typedDuringModel != [] || (s.seg.atoms == [] && text == ""))
       case Calls(text, calls, _) =>
         || w.typedBeforeDrain == [] || w.typedDuringModel + w.typedDuringTools != []
         || (s.seg.atoms == [] && text == "" && calls == [])
       case Failed(_) => true
  }

  /** At the top of the loop. */
  predicate Level(base: Reading, s: State, ok: bool) {
    s.inbox.accepting && (!s.cancelled ==> Stands(PagesOf(base, s), s.seg.final == "", ok))
  }

  lemma SilentFailure(a: Attempt)
    requires a.reply.Failed? && a.partial == ""
    ensures Streamed(a) == []
  {
  }

  lemma {:induction false} AskAtomsSilent(a: Attempts, k: nat)
    requires k <= MAX_MODEL_RETRIES
    requires forall i :: k <= i < Settle(a, k).calls - 1 ==> a[i].partial == ""
    ensures var r := Settle(a, k);
            !r.reply.Failed? ==> AskAtoms(a, k) == Streamed(a[r.calls - 1]) && r.reply == a[r.calls - 1].reply
    decreases MAX_MODEL_RETRIES - k
  {
    hide Streamed, IsRetryable;
    if Retries(a, k) {
      if !a[k].cancelled {
        var r := Settle(a, k + 1);
        assert Settle(a, k) == r;
        AskAtomsSilent(a, k + 1);
        if !r.reply.Failed? {
          SilentFailure(a[k]);
          assert AskAtoms(a, k) == [] + AskAtoms(a, k + 1);
        }
      }
    } else {
      assert Streamed(a[k]) + [] == Streamed(a[k]);
    }
  }

  lemma {:induction false} TextOfChars(atoms: seq<Atom>, text: string)
    ensures TextIn(atoms + Chars(text)) == TextIn(atoms) + text
    decreases |text|
  {
    if text == "" {
      assert atoms + Chars(text) == atoms;
    } else {
      var front := text[..|text| - 1];
      assert Chars(text) == Chars(front) + [Ch(text[|text| - 1])];
      assert (atoms + Chars(text))[..|atoms + Chars(text)| - 1] == atoms + Chars(front);
      TextOfChars(atoms, front);
      assert text == front + [text[|text| - 1]];
    }
  }

  /** What an answer leaves on the card, given what was waiting. */
  lemma CardOfAnswer(atoms: seq<Atom>, streaming: bool, text: string)
    ensures var seg := Segment(if streaming then atoms + Chars(text) else atoms, text);
            && (Card(seg) == atoms + Chars(text) || Card(seg) == atoms)
            && (Card(seg) == atoms + Chars(text) <==> streaming || text == "" || !EndsWith(TextIn(atoms), text))
            && (Card(seg) == [] <==> atoms == [] && text == "")
  {
    if streaming {
      TextOfChars(atoms, text);
    }
    if text != "" {
      assert Chars(text)[0] == Ch(text[0]);
      assert |atoms + Chars(text)| > |atoms|;
    }
  }

  lemma StandsMeans(p: Pages, clean: bool, ok: bool)
    requires Stands(p, clean, ok)
    ensures p.Aligned() <==> ok
  {
  }

  lemma OnDoneLevel(
    base: Reading, cfg: Config, s: State, w: World, text: string, cleaned: string, q: Pages, atoms: seq<Atom>,
    clean: bool, ok: bool)
    requires s.inbox.accepting && Stands(q, clean, ok) && (clean ==> q.card == atoms)
    requires q.logged == Logged(base, s.trace) && q.said == Spoken(s.entries)
    requires s.seg.atoms == if w.streaming then atoms + Chars(text) else atoms
    ensures var r := OnDone(cfg, s, w, text, false, cleaned);
            var still := && ok && (w.streaming || text == "" || !EndsWith(TextIn(atoms), text))
                         && (w.typedWhileClosing == [] || s.inbox.pending != [] || (atoms == [] && text == ""));
            && (r.Again? ==> Level(base, r.s, still))
            && (r.Leave? ==> (PagesOf(base, r.s).Aligned() <==> still))
  {
    hide Logged, Spoken, Stands, CloseTurn, Drain, StopHook, Card, Chars, TextIn, Answered, Deliver;
    CloseTurnPages(base, s, w, text);
    CardOfAnswer(atoms, w.streaming, text);
    var card, spoken := Card(Segment(s.seg.atoms, text)), Chars(text) + Tools([]);
    assert spoken == Chars(text);
    AnsweredStands(q, clean, ok, card, spoken);
    AnswerReplaces(q, PagesOf(base, s), card, spoken);
    var p := Answered(q, card, spoken);
    assert p.card == card by { AnswerReplaces(q, q, card, spoken); }
    var kept := ok && card == q.card + spoken;
    DeliverStands(p, clean, kept, s.inbox.pending, w.typedWhileClosing);
    StandsClean(q, clean, ok);
    var still := kept && (w.typedWhileClosing == [] || s.inbox.pending != [] || card == []);
    var s1 := CloseTurn(s, w, text, text);
    var s2 := PushLate(Drain(s1), w.late);
    assert PagesOf(base, s2) == Deliver(p, s.inbox.pending, w.typedWhileClosing);
    if s1.inbox.pending != [] {
      StandsLater(PagesOf(base, s2), clean, still, s2.seg.final == "");
      assert PagesOf(base, Reopen(s2)) == PagesOf(base, s2);
    } else {
      StopHookUpholds(base, cfg, s2, w, text, clean, still);
      UpheldMeans(base, StopHook(cfg, s2, w, text), clean, still);
    }
  }

  lemma StandsClean(p: Pages, clean: bool, ok: bool)
    requires Stands(p, clean, ok)
    ensures ok ==> clean
  {
  }

  lemma AnswerReplaces(q: Pages, p: Pages, card: seq<Atom>, spoken: seq<Atom>)
    requires q.logged == p.logged && q.said == p.said
    ensures Answered(p, card, spoken) == Answered(q, card, spoken) && Answered(q, card, spoken).card == card
  {
  }

  lemma StandsLater(p: Pages, clean: bool, ok: bool, later: bool)
    requires Stands(p, clean, ok)
    ensures p.Crossed() ==> Stands(p, later, ok)
    ensures ok && later ==> Stands(p, later, ok)
  {
  }

  lemma UpheldMeans(base: Reading, r: Trip, clean: bool, ok: bool)
    requires Upheld(base, r, clean, ok)
    ensures r.Leave? ==> (PagesOf(base, r.s).Aligned() <==> ok)
    ensures r.Again? ==> Level(base, r.s, ok)
  {
  }

  lemma OnCallsLevel(
    base: Reading, cfg: Config, s: State, w: World, text: string, calls: seq<CallId>, q: Pages, atoms: seq<Atom>,
    clean: bool, ok: bool)
    requires s.inbox.accepting && Stands(q, clean, ok) && (clean ==> q.card == atoms)
    requires q.logged == Logged(base, s.trace) && q.said == Spoken(s.entries)
    requires clean == (s.seg.final == "")
    requires s.seg.atoms == if w.streaming then atoms + (Chars(text) + Tools(calls)) else atoms
    ensures var r := OnCalls(cfg, s, w, text, calls);
            var still := ok && (w.typedBeforeDrain == [] || s.inbox.pending + w.typedDuringTools != []
                                || (atoms == [] && text == "" && calls == []));
            && (r.Again? ==> Level(base, r.s, still))
            && (r.Leave? && r.outcome == Failure(Suspended) && !r.s.cancelled ==>
                  (PagesOf(base, r.s).Aligned() <==> still))
            && !(r.Leave? && r.outcome.Success?)
  {
    hide Logged, Spoken, Stands, OnCalls, Card, Chars, Tools, Answered, Deliver;
    OnCallsPages(base, cfg, s, w, text, calls);
    OnCallsFails(cfg, s, w, text, calls);
    var spoken := Chars(text) + Tools(calls);
    var shown := if w.streaming then s.seg else Segment(s.seg.atoms + spoken, s.seg.final);
    assert shown == Segment(atoms + spoken, s.seg.final);
    var card := Card(shown);
    if clean {
      CardOfTurn(atoms, text, calls);
    }
    AnsweredStands(q, clean, ok, card, spoken);
    AnswerReplaces(q, PagesOf(base, s), card, spoken);
    AnswerReplaces(q, q, card, spoken);
    StandsClean(q, clean, ok);
    var p := Answered(q, card, spoken);
    var seen := s.inbox.pending + w.typedDuringTools;
    DeliverStands(p, clean, ok, seen, w.typedBeforeDrain);
    var still := ok && (w.typedBeforeDrain == [] || seen != [] || card == []);
    var r := OnCalls(cfg, s, w, text, calls);
    if r.Again? || (r.Leave? && r.outcome == Failure(Suspended)) {
      if !r.s.cancelled {
        StandsMeans(PagesOf(base, r.s), clean, still);
        StandsCleaner(PagesOf(base, r.s), clean, still);
      }
    }
  }

  lemma StandsCleaner(p: Pages, clean: bool, ok: bool)
    requires Stands(p, clean, ok)
    ensures Stands(p, true, ok)
  {
  }

  lemma CardOfTurn(atoms: seq<Atom>, text: string, calls: seq<CallId>)
    ensures var spoken := Chars(text) + Tools(calls);
            && Card(Segment(atoms + spoken, "")) == atoms + spoken
            && (atoms + spoken == [] <==> atoms == [] && text == "" && calls == [])
  {
    assert |Chars(text)| == |text| && |Tools(calls)| == |calls|;
    assert |atoms + (Chars(text) + Tools(calls))| == |atoms| + |text| + |calls|;
  }

  lemma OnCallsFails(cfg: Config, s: State, w: World, text: string, calls: seq<CallId>)
    ensures var r := OnCalls(cfg, s, w, text, calls); r.Leave? ==> r.outcome.Failure?
  {
    hide Dispatch, Collect, Push, Chars, Suspend;
  }

  lemma OnErrorFails(cfg: Config, s: State, e: ClientError)
    requires !e.ContextTooLong()
    ensures var r := OnError(cfg, s, e); r.Leave? && r.outcome == Failure(e) && r.outcome != Failure(Suspended)
  {
    hide Install, EmergencyReset;
  }

  /** The state of play after one trip. */
  predicate Told(base: Reading, r: Trip, ok: bool) {
    match r
    case Again(s, _) => Level(base, s, ok)
    case Leave(s, outcome) =>
      outcome.Success? || (outcome == Failure(Suspended) && !s.cancelled) ==> (PagesOf(base, s).Aligned() <==> ok)
    case Drop(_) => true
  }

  lemma PassTold(base: Reading, cfg: Config, s: State, w: World, ok: bool)
    requires Level(base, s, ok) && Calm(w)
    ensures Told(base, Pass(cfg, s, w), ok && InStep(s, w))
  {
    hide Logged, Spoken, Stands, Boundary, ModelStep, OnDone, OnCalls, OnError, Account, Card, Chars, Tools, TextIn,
      Hand, AskAtoms, Settle, EndsWith;
    BoundaryPages(base, s, w);
    match Boundary(s, w) {
      case Halt(_) =>
      case Abandon(_) =>
      case Go(s1) =>
        assert !s.cancelled by { NotHalted(s, w); }
        var top := s.inbox.pending + w.typedBefore;
        var clean, atoms := s.seg.final == "", s.seg.atoms;
        var p := PagesOf(base, s);
        HandStands(p, clean, ok, top);
        CardAtTop(s.seg);
        var q := Hand(p, top);
        HandCard(p, top);
        StandsClean(p, clean, ok);
        var ordered := ok && (top == [] || p.card == []);
        assert ordered == (ok && (top == [] || atoms == []));
        assert q == PagesOf(base, s1);
        ModelStepPages(base, s1, w);
        AskAtomsSilent(w.attempts, 0);
        assert [] + w.typedDuringModel == w.typedDuringModel;
        var (s2, reply) := ModelStep(s1, w);
        match reply {
          case Done(text, leaked, cleaned, usage, finish) =>
            var s3 := s2.(finish := finish);
            AccountPages(base, s3, usage);
            StreamedReply(w.attempts[Settle(w.attempts, 0).calls - 1]);
            assert atoms + [] == atoms;
            OnDoneLevel(base, cfg, Account(s3, usage), w, text, cleaned, q, atoms, clean, ordered);
          case Calls(text, calls, usage) =>
            AccountPages(base, s2, usage);
            StreamedReply(w.attempts[Settle(w.attempts, 0).calls - 1]);
            assert atoms + [] == atoms;
            OnCallsLevel(base, cfg, Account(s2, usage), w, text, calls, q, atoms, clean, ordered);
          case Failed(e) =>
            OnErrorFails(cfg, s2, e);
        }
    }
  }

  lemma NotHalted(s: State, w: World)
    ensures Boundary(s, w).Go? ==> !s.cancelled
  {
    hide Drain, Install;
  }

  lemma CardAtTop(seg: Segment)
    ensures seg.final == "" ==> Card(seg) == seg.atoms
  {
  }

  lemma HandCard(p: Pages, said: seq<Said>)
    ensures Hand(p, said).card == p.card
  {
  }

  lemma StreamedReply(a: Attempt)
    ensures a.reply.Done? ==> Streamed(a) == Chars(a.reply.text)
    ensures a.reply.Calls? ==> Streamed(a) == Chars(a.reply.text) + Tools(a.reply.calls)
  {
  }

  // ------------------------------------------------------------- runs

  predicate AllCalm(script: seq<World>) {
    forall i :: 0 <= i < |script| ==> Calm(script[i])
  }

  /** Every trip the run makes logs in order. */
  predicate AllInStep(cfg: Config, s: State, script: seq<World>)
    decreases |script|
  {
    script != [] ==>
      InStep(s, script[0]) &&
      (var r := Pass(cfg, s, script[0]);
       r.Again? ==> AllInStep(cfg, r.s, script[1..]))
  }

  lemma EpilogueLogged(base: Reading, s: State, outcome: Outcome, w: World)
    ensures var s1 := Epilogue(s, outcome, w);
            Logged(base, s1.trace) == PagesOf(base, s).Log() && s1.entries == s.entries && s1.cancelled == s.cancelled
  {
    hide Logged, Flush, Card, ContinueFor;
    Law();
    FlushLogged(base, SetAccepting(Arrive(s, w.typedLeaving), false));
  }

  lemma {:induction false} RunTold(base: Reading, cfg: Config, s: State, script: seq<World>, ok: bool)
    requires Level(base, s, ok) && AllCalm(script)
    ensures var r := RunOver(cfg, s, script);
            r.Ended? && (r.outcome.Success? || (r.outcome == Failure(Suspended) && !r.s.cancelled)) ==>
              (Logged(base, r.s.trace) == Spoken(r.s.entries) <==> ok && AllInStep(cfg, s, script))
    decreases |script|
  {
    hide Pass, Epilogue, Logged, Spoken, Level, InStep, PagesOf, Calm;
    if script != [] {
      PassTold(base, cfg, s, script[0], ok);
      match Pass(cfg, s, script[0]) {
        case Again(s1, _) => RunTold(base, cfg, s1, script[1..], ok && InStep(s, script[0]));
        case Leave(s1, outcome) =>
          EpilogueLogged(base, s1, outcome, script[0]);
          PagesSaid(base, s1);
        case Drop(_) =>
      }
    }
  }

  lemma PagesSaid(base: Reading, s: State)
    ensures PagesOf(base, s).said == Spoken(s.entries)
  {
  }

  /** A new run's log and conversation start level. */
  lemma FreshLevel(entries: seq<Entry>, waiting: seq<Said>, goal: Option<Goal>, left: Option<ContinueKind>)
    ensures Level(Spoken(entries), Fresh(entries, waiting, goal, left), true)
  {
    hide Spoken, Logged;
    var base := Spoken(entries);
    Law();
    assert [RunStarted] == Then([], RunStarted);
    LoggedNothing(base);
    AddNothing(base);
    CardOfNothing();
  }

  /**
   The log of a run that ends well, or goes to sleep, reads like its conversation: the same user messages in the
   same order with the same output before each. That holds if and only if every trip logs in order.
   */
  lemma LogRefinesTranscript(
    cfg: Config, entries: seq<Entry>, waiting: seq<Said>, goal: Option<Goal>, left: Option<ContinueKind>,
    script: seq<World>)
    requires AllCalm(script)
    ensures var s := Fresh(entries, waiting, goal, left);
            var r := RunOver(cfg, s, script);
            r.Ended? && (r.outcome.Success? || (r.outcome == Failure(Suspended) && !r.s.cancelled)) ==>
              (Logged(Spoken(entries), r.s.trace) == Spoken(r.s.entries) <==> AllInStep(cfg, s, script))
  {
    hide RunOver, Spoken, Logged, AllCalm, AllInStep, Level;
    FreshLevel(entries, waiting, goal, left);
    RunTold(Spoken(entries), cfg, Fresh(entries, waiting, goal, left), script, true);
  }

  lemma LoggedNothing(base: Reading)
    ensures Logged(base, []) == base
  {
  }

  // ------------------------------------------------------------- timely inputs

  lemma StopHookInbox(cfg: Config, s: State, w: World, text: string)
    ensures var r := StopHook(cfg, s, w, text);
            r.s.inbox.pending == s.inbox.pending && (r.Again? ==> r.s.inbox.accepting)
  {
    hide Flush, Judge;
    FlushLogged(NO_READING, s);
    if cfg.hasHooks && s.b.hooks < MAX_STOP_INJECTIONS {
      JudgeInbox(cfg, Do(Flush(s), Wrote(HookMark)), w, text);
    } else {
      JudgeInbox(cfg, s, w, text);
    }
  }

  lemma JudgeInbox(cfg: Config, s: State, w: World, text: string)
    ensures var r := Judge(cfg, s, w, text);
            r.s.inbox.pending == s.inbox.pending && (r.Again? ==> r.s.inbox.accepting)
  {
    hide Flush;
    FlushLogged(NO_READING, s);
  }

  /** With nobody late, a calm trip that goes round again leaves nothing in the inbox. */
  lemma PassEmpties(cfg: Config, s: State, w: World)
    requires s.inbox.accepting && Calm(w) && w.late == []
    ensures var r := Pass(cfg, s, w); r.Again? ==> r.s.inbox.pending == [] && r.s.inbox.accepting
  {
    hide Logged, Spoken, Boundary, ModelStep, OnCalls, OnError, Account, StopHook, CloseTurn, Drain, Settle;
    BoundaryPages(NO_READING, s, w);
    match Boundary(s, w) {
      case Halt(_) =>
      case Abandon(_) =>
      case Go(s1) =>
        ModelStepPages(NO_READING, s1, w);
        var (s2, reply) := ModelStep(s1, w);
        match reply {
          case Done(text, leaked, cleaned, usage, finish) =>
            AccountPages(NO_READING, s2.(finish := finish), usage);
            var s3 := Account(s2.(finish := finish), usage);
            CloseTurnPages(NO_READING, s3, w, text);
            var s4 := PushLate(Drain(CloseTurn(s3, w, text, text)), w.late);
            StopHookInbox(cfg, s4, w, text);
          case Calls(text, calls, usage) =>
            AccountPages(NO_READING, s2, usage);
            OnCallsPages(NO_READING, cfg, Account(s2, usage), w, text, calls);
          case Failed(e) =>
            OnErrorFails(cfg, s2, e);
        }
    }
  }

  /** Inputs that arrive only while the model or a tool batch is at work, and answers that are streamed, are enough. */
  lemma {:induction false} TimelyIsInStep(cfg: Config, s: State, script: seq<World>)
    requires s.inbox.accepting && s.inbox.pending == [] && AllCalm(script)
    requires forall i :: 0 <= i < |script| ==>
               var w := script[i];
               w.streaming && w.typedBefore + w.typedBeforeDrain + w.typedWhileClosing + w.late == []
    ensures AllInStep(cfg, s, script)
    decreases |script|
  {
    hide Pass, Calm, Settle, EndsWith, TextIn;
    if script != [] {
      var w := script[0];
      PassEmpties(cfg, s, w);
      assert s.inbox.pending + w.typedBefore == [];
      assert InStep(s, w);
      var r := Pass(cfg, s, w);
      if r.Again? {
        TimelyIsInStep(cfg, r.s, script[1..]);
      }
    }
  }

  // ------------------------------------------------------------- a lost answer

  /** A trip in which nothing happens but an unstreamed reply. */
  function Plain(reply: Reply): World {
    World([], false, NotNeeded, false, seq(MAX_MODEL_RETRIES + 1, _ => Attempt(reply, "", false)), KeepGoal, [], false,
          0, None, [], [], [], [], [], false, Passed, false, IsAchieved, [])
  }

  const BARE := Config(false, false, None, 3)
  const ASKS := Plain(Calls("ok", ["t"], NO_USAGE))
  const REPEATS := Plain(Done("ok", false, "ok", NO_USAGE, Stop))

  lemma PlainSettles(reply: Reply)
    requires !reply.Failed?
    ensures Settle(Plain(reply).attempts, 0) == Settled(reply, 1, 0, false)
    ensures Calm(Plain(reply)) <== !(reply.Done? && reply.leaked)
  {
  }

  lemma PlainCalls(s: State, text: string, calls: seq<CallId>, usage: Usage)
    requires !s.cancelled && s.inbox == Inbox(true, [], [], []) && s.goal.None?
    ensures var r := Pass(BARE, s, Plain(Calls(text, calls, usage)));
            && r.Again? && r.s.seg == Segment(s.seg.atoms + Chars(text) + Tools(calls), s.seg.final)
            && !r.s.cancelled && r.s.inbox == Inbox(true, [], [], []) && r.s.goal.None?
  {
    hide AskTrace, AskAtoms, Settle, Chars, Tools, Push;
    var w := Plain(Calls(text, calls, usage));
    PlainSettles(Calls(text, calls, usage));
    var s1 := Boundary(s, w).s;
    var (s2, reply) := ModelStep(s1, w);
    var s3 := OnCalls(BARE, Account(s2, usage), w, text, calls);
    assert calls[..|calls|] == calls;
  }

  lemma PlainDone(s: State, text: string, usage: Usage)
    requires !s.cancelled && s.inbox == Inbox(true, [], [], []) && s.goal.None?
    ensures var r := Pass(BARE, s, Plain(Done(text, false, text, usage, Stop)));
            r.Leave? && r.outcome == Success(text)
  {
    hide AskTrace, AskAtoms, Settle, Chars, Tools, Push;
    var w := Plain(Done(text, false, text, usage, Stop));
    PlainSettles(Done(text, false, text, usage, Stop));
    var s1 := Boundary(s, w).s;
    var (s2, reply) := ModelStep(s1, w);
  }

  lemma RepeatsOutOfStep(s: State)
    requires s.seg.atoms == [] + Chars("ok") + Tools(["t"])
    ensures !InStep(s, REPEATS)
  {
    hide Settle, Chars, Tools;
    PlainSettles(Done("ok", false, "ok", NO_USAGE, Stop));
    TextBeforeTool([] + Chars("ok"), "t");
    TextOfChars([], "ok");
    assert EndsWith(TextIn(s.seg.atoms), "ok");
  }

  lemma TwoTrips(cfg: Config, s: State, v: World, w: World)
    requires Pass(cfg, s, v).Again?
    ensures var s1 := Pass(cfg, s, v).s;
            && (AllInStep(cfg, s, [v, w]) ==> InStep(s1, w))
            && RunOver(cfg, s, [v, w]) ==
               match Pass(cfg, s1, w)
               case Again(s2, _) => Going(s2)
               case Leave(s2, outcome) => Ended(Epilogue(s2, outcome, w), outcome)
               case Drop(s2) => Abandoned(s2)
  {
    hide Pass, Epilogue, InStep;
    var s1 := Pass(cfg, s, v).s;
    assert [v, w][1..] == [w] && [w][1..] == [];
    assert RunOver(cfg, s, [v, w]) == RunOver(cfg, s1, [w]);
    assert AllInStep(cfg, s, [v, w]) ==> AllInStep(cfg, s1, [w]);
    match Pass(cfg, s1, w) {
      case Again(s2, _) => assert RunOver(cfg, s2, []) == Going(s2);
      case _ =>
    }
  }

  /**
   Timely inputs alone do not make the log faithful: with nothing typed at all, an unstreamed answer that repeats
   the end of what was said before the tools ran is missing from the log.
   */
  lemma RepeatedAnswerIsLost()
    ensures var s := Fresh([User(Typed("hi"))], [], None, None);
            var r := RunOver(BARE, s, [ASKS, REPEATS]);
            && AllCalm([ASKS, REPEATS]) && r.Ended? && r.outcome == Success("ok")
            && Logged(Spoken([User(Typed("hi"))]), r.s.trace) != Spoken(r.s.entries)
  {
    hide Pass, Epilogue, Settle, Spoken, Logged, Chars, Tools, Calm, RunOver, AllInStep, InStep;
    var s := Fresh([User(Typed("hi"))], [], None, None);
    PlainSettles(Calls("ok", ["t"], NO_USAGE));
    PlainSettles(Done("ok", false, "ok", NO_USAGE, Stop));
    PlainCalls(s, "ok", ["t"], NO_USAGE);
    var s1 := Pass(BARE, s, ASKS).s;
    PlainDone(s1, "ok", NO_USAGE);
    RepeatsOutOfStep(s1);
    TwoTrips(BARE, s, ASKS, REPEATS);
    LogRefinesTranscript(BARE, [User(Typed("hi"))], [], None, None, [ASKS, REPEATS]);
  }

  lemma TextBeforeTool(atoms: seq<Atom>, id: CallId)
    ensures TextIn(atoms + Tools([id])) == TextIn(atoms)
  {
    assert atoms + Tools([id]) == atoms + [Tool(id)];
    assert (atoms + [Tool(id)])[..|atoms|] == atoms;
  }
}
