/** Exactly when a run takes some of its ways: an emergency reset, a cancel, an answer that is handed back. */
module TripWays {
  import opened Transcript
  import opened Options
  import opened Retry
  import opened AgentLoop
  import opened Plans
  import Accounts
  import LogicalRuns
  import Resume
  import RunPromises

  // ------------------------------------------------------------- the emergency reset

  /** A failure that names the context limit: with status 400 or 413, or with none. */
  predicate NamesLimit(reply: Reply) {
    reply == Failed(Http(400, true)) || reply == Failed(Http(413, true)) || reply == Failed(Other(true))
  }

  /**
   A trip goes round for a reset exactly when the model step ends with such a failure and the run has not reset since
   it started or woke; the model is then asked with the summary and the last turns, three or as many as configured.
   */
  lemma ResetWhen(cfg: Config, s: State, w: World)
    requires s.inbox.accepting
    ensures var r := Pass(cfg, s, w);
            var k := if cfg.keepRecentTurns >= 3 then cfg.keepRecentTurns else 3;
            var es := Context(s.entries + Voices(s.inbox.pending + w.typedBefore), w.compaction);
            && (r.Again? && r.why == ForReset
                <==> Accounts.Asks(s, w) && NamesLimit(Settle(w.attempts, 0).reply) && !s.b.resetTried)
            && (r.Again? && r.why == ForReset ==>
                  && r.s.b.resetTried && |r.s.entries| >= 2
                  && r.s.entries[..2] == [User(Recap), Assistant("ack", [])]
                  && LastTurns(es, k, r.s.entries[2..]))
  {
    hide Pass, Digest, Settle, Voices, EmergencyReset, LastTurns;
    PassPlanned(cfg, s, w);
    ResetKeepsTurns(Context(s.entries + Voices(s.inbox.pending + w.typedBefore), w.compaction), cfg.keepRecentTurns);
    hide OnAnswer, OnBatch;
    NoOtherReset(cfg, w);
  }

  lemma NoOtherReset(cfg: Config, w: World)
    ensures forall p, text, leaked, cleaned {:trigger OnAnswer(cfg, p, w, text, leaked, cleaned)} ::
              OnAnswer(cfg, p, w, text, leaked, cleaned).way != Round(ForReset)
    ensures forall p, text, calls {:trigger OnBatch(cfg, p, w, text, calls)} ::
              OnBatch(cfg, p, w, text, calls).way != Round(ForReset)
  {
    hide Voices;
  }

  // ------------------------------------------------------------- cancels

  /** The answer gets as far as the judge: nothing leaked that may be repaired, nobody typed, no hook objects. */
  predicate IsJudged(cfg: Config, s: State, w: World, reply: Reply) {
    && reply.Done? && !(reply.leaked && s.b.leaks < 2)
    && w.typedDuringModel + w.typedWhileClosing == []
    && !(cfg.hasHooks && s.b.hooks < 3 && w.hook.InjectFollowup? && w.hook.reminder != "")
    && Edited(s.goal, w.goalEdit).Some? && cfg.hasJudge
  }

  /** A cancel decides the trip: at its top, in the model step, among the tools, or when the judge wants more. */
  predicate IsCancelled(cfg: Config, s: State, w: World) {
    s.cancelled || w.cancelBefore ||
    (Accounts.Asks(s, w) &&
     var answer := Settle(w.attempts, 0);
     match answer.reply
     case Failed(e) => e == Cancelled
     case Calls(_, _, _) => !Accounts.AtCap(cfg, s.c.iteration) && w.toolError == Some(Cancelled)
     case Done(_, _, _, _, _) =>
       IsJudged(cfg, s, w, answer.reply) && w.verdict.NotYet? && (answer.cancelled || w.cancelJudge))
  }

  /** What an answer that is not cut short by the judge's wish for more comes to. */
  lemma StopCancelled(cfg: Config, p: Plan, w: World, kept: string)
    ensures OnStop(cfg, p, w, kept).way == Out(Failure(Cancelled)) <==>
              && !(cfg.hasHooks && p.b.hooks < 3 && w.hook.InjectFollowup? && w.hook.reminder != "")
              && p.goal.Some? && cfg.hasJudge && w.verdict.NotYet? && (p.cancelled || w.cancelJudge)
  {
  }

  lemma AnswerCancelled(cfg: Config, p: Plan, w: World, text: string, leaked: bool, cleaned: string)
    ensures OnAnswer(cfg, p, w, text, leaked, cleaned).way == Out(Failure(Cancelled)) <==>
              && !(leaked && p.b.leaks < 2) && p.waiting + w.typedWhileClosing == []
              && !(cfg.hasHooks && p.b.hooks < 3 && w.hook.InjectFollowup? && w.hook.reminder != "")
              && p.goal.Some? && cfg.hasJudge && w.verdict.NotYet? && (p.cancelled || w.cancelJudge)
  {
    hide OnStop, Voices;
    var kept, typed := (if leaked then cleaned else text), p.waiting + w.typedWhileClosing;
    StopCancelled(cfg, p.(entries := p.entries + [Assistant(kept, [])] + Voices(typed), waiting := w.late), w, kept);
  }

  lemma BatchCancelled(cfg: Config, p: Plan, w: World, text: string, calls: seq<CallId>)
    ensures var way := OnBatch(cfg, p, w, text, calls).way;
            && (way == Out(Failure(Cancelled)) <==>
                  !Accounts.AtCap(cfg, p.iteration) && w.toolError == Some(Cancelled))
            && (way.Out? ==> way.outcome.Failure?)
  {
    hide Voices;
  }

  lemma PassCancelled(cfg: Config, s: State, w: World)
    requires s.inbox.accepting
    ensures var r := Pass(cfg, s, w);
            r.Leave? && r.outcome == Failure(Cancelled) <==> IsCancelled(cfg, s, w)
  {
    hide Pass, Digest, Settle, Voices, OnAnswer, OnBatch, EmergencyReset;
    PassPlanned(cfg, s, w);
    if Accounts.Asks(s, w) {
      var p := AskedPlan(s, w);
      match Settle(w.attempts, 0).reply {
        case Failed(_) =>
        case Done(text, leaked, cleaned, _, _) => AnswerCancelled(cfg, p, w, text, leaked, cleaned);
        case Calls(text, calls, _) => BatchCancelled(cfg, p, w, text, calls);
      }
    }
  }

  /** Where the trip stands once the model has answered. */
  function AskedPlan(s: State, w: World): Plan {
    Plan(Context(s.entries + Voices(s.inbox.pending + w.typedBefore), w.compaction), w.typedDuringModel,
         Settle(w.attempts, 0).cancelled, s.c.iteration, s.c.offset, s.b, Edited(Announced(s.goal), w.goalEdit))
  }

  predicate CancelledIn(cfg: Config, s: State, script: seq<World>)
    decreases |script|
  {
    script != [] &&
    (IsCancelled(cfg, s, script[0]) ||
     (var r := Pass(cfg, s, script[0]);
      r.Again? && CancelledIn(cfg, r.s, script[1..])))
  }

  /** A run ends cancelled exactly when a cancel decides one of its trips. */
  lemma {:induction false} CancelledWhen(cfg: Config, s: State, script: seq<World>)
    requires s.inbox.accepting
    ensures var r := RunOver(cfg, s, script);
            r.Ended? && r.outcome == Failure(Cancelled) <==> CancelledIn(cfg, s, script)
    decreases |script|
  {
    hide Pass, Epilogue, IsCancelled, Goes;
    if script != [] {
      PassCancelled(cfg, s, script[0]);
      GoesRound(cfg, s, script[0]);
      match Pass(cfg, s, script[0]) {
        case Again(s1, _) => CancelledWhen(cfg, s1, script[1..]);
        case Leave(_, _) =>
        case Drop(_) =>
      }
    }
  }

  lemma GoesRound(cfg: Config, s: State, w: World)
    requires s.inbox.accepting
    ensures var r := Pass(cfg, s, w); r.Again? ==> r.s.inbox.accepting
  {
    hide Pass, MoveOf, Digest;
    PassPlanned(cfg, s, w);
  }

  /** A cancel arrived that the trip did not act on: while the model answered, or among tools that ran to an end. */
  predicate CancelPends(w: World) {
    var answer := Settle(w.attempts, 0);
    answer.cancelled || (answer.reply.Calls? && w.cancelTools)
  }

  lemma PassKeepsCancel(cfg: Config, s: State, w: World)
    requires s.inbox.accepting
    ensures var r := Pass(cfg, s, w); r.Again? ==> (r.s.cancelled <==> CancelPends(w))
  {
    hide Pass, Digest, Settle, Voices, EmergencyReset;
    PassPlanned(cfg, s, w);
  }

  /** Such a cancel is not forgotten while the run is awake: the next trip ends it, and the model is not asked again. */
  lemma CancelIsHeeded(cfg: Config, s: State, w: World, rest: seq<World>)
    requires s.inbox.accepting && Pass(cfg, s, w).Again? && CancelPends(w) && rest != []
    ensures var s1 := Pass(cfg, s, w).s;
            var r := RunOver(cfg, s1, rest);
            && r.Ended? && r.outcome == Failure(Cancelled) && RunPromises.Trips(cfg, s1, rest) == 1
            && Accounts.Answers(cfg, s1, rest) == [] && r.s.c == s1.c
  {
    hide Pass, CancelPends;
    PassKeepsCancel(cfg, s, w);
    var s1 := Pass(cfg, s, w).s;
    GoesRound(cfg, s, w);
    PassCancelled(cfg, s1, rest[0]);
    CancelStops(cfg, s1, rest[0]);
  }

  lemma CancelStops(cfg: Config, s: State, w: World)
    requires s.cancelled
    ensures var r := Pass(cfg, s, w); r.Leave? && Epilogue(r.s, r.outcome, w).c == s.c
  {
    hide Digest, Epilogue;
    Resume.Halts(s, w);
    Resume.EpilogueCounters(Boundary(s, w).s, Failure(Cancelled), w);
  }

  // ------------------------------------------------------------- what is sent, and why a turn ends

  function RequestIn(a: Act): Option<seq<Entry>> {
    if a.Asked? then Some(a.entries) else None
  }

  function ReasonIn(a: Act): Option<StopReason> {
    if a.TurnFinished? then Some(a.reason) else None
  }

  /** An answer to be repaired ends no turn. */
  function ReasonsOf(cfg: Config, s: State, w: World, reply: Reply): seq<StopReason> {
    match reply
    case Failed(_) => [TurnFailed]
    case Done(_, leaked, _, _, _) => if leaked && s.b.leaks < 2 then [] else [EndTurn]
    case Calls(_, _, _) =>
      [if Accounts.AtCap(cfg, s.c.iteration) then MaxIterations
       else if w.toolError.Some? then TurnCancelled
       else EndTurn]
  }

  /** Sends nothing, and ends turns for these reasons. */
  predicate Closes(says: seq<Act>, reasons: seq<StopReason>) {
    Accounts.Picked(says, RequestIn) == [] && Accounts.Picked(says, ReasonIn) == reasons
  }

  lemma ClosesAfter(before: seq<Act>, says: seq<Act>, reasons: seq<StopReason>)
    requires Closes(before, []) && Closes(says, reasons)
    ensures Closes(before + says, reasons)
  {
    hide Accounts.Picked;
    Accounts.PickedConcat(before, says, RequestIn);
    Accounts.PickedConcat(before, says, ReasonIn);
    assert [] + reasons == reasons;
  }

  /** Neither requests nor ends of turns. */
  predicate Aside(says: seq<Act>) {
    forall a :: a in says ==> !a.Asked? && !a.TurnFinished?
  }

  lemma AsideCloses(says: seq<Act>)
    requires Aside(says)
    ensures Closes(says, [])
  {
    Accounts.NothingPicked(says, RequestIn);
    Accounts.NothingPicked(says, ReasonIn);
  }

  lemma EndCloses(before: seq<Act>, reason: StopReason, rest: seq<Act>)
    requires Aside(before) && Aside(rest)
    ensures Closes(before + [TurnFinished(reason)] + rest, [reason])
  {
    hide Accounts.Picked;
    AsideCloses(before);
    AsideCloses(rest);
    Accounts.PickedOne(TurnFinished(reason), RequestIn);
    Accounts.PickedOne(TurnFinished(reason), ReasonIn);
    Accounts.PickedConcat(before, [TurnFinished(reason)], RequestIn);
    Accounts.PickedConcat(before, [TurnFinished(reason)], ReasonIn);
    Accounts.PickedConcat(before + [TurnFinished(reason)], rest, RequestIn);
    Accounts.PickedConcat(before + [TurnFinished(reason)], rest, ReasonIn);
  }

  lemma StopAside(cfg: Config, p: Plan, w: World, kept: string)
    ensures Aside(OnStop(cfg, p, w, kept).says)
  {
  }

  lemma AnswerCloses(cfg: Config, p: Plan, w: World, text: string, leaked: bool, cleaned: string)
    ensures Closes(OnAnswer(cfg, p, w, text, leaked, cleaned).says, if leaked && p.b.leaks < 2 then [] else [EndTurn])
  {
    hide OnStop, Voices, Closes;
    if leaked && p.b.leaks < 2 {
      AsideCloses([]);
    } else {
      var kept, typed := (if leaked then cleaned else text), p.waiting + w.typedWhileClosing;
      var q := p.(entries := p.entries + [Assistant(kept, [])] + Voices(typed), waiting := w.late);
      StopAside(cfg, q, w, kept);
      var rest := if typed != [] then [] else OnStop(cfg, q, w, kept).says;
      EndCloses([TextDone(text)], EndTurn, rest);
      assert [TextDone(text)] + [TurnFinished(EndTurn)] == [TextDone(text), TurnFinished(EndTurn)];
    }
  }

  lemma BatchCloses(cfg: Config, p: Plan, w: World, text: string, calls: seq<CallId>)
    ensures Closes(OnBatch(cfg, p, w, text, calls).says,
                   [if Accounts.AtCap(cfg, p.iteration) then MaxIterations
                    else if w.toolError.Some? then TurnCancelled else EndTurn])
  {
    hide Voices, Closes;
    var says, batch := OnBatch(cfg, p, w, text, calls).says, Dispatched(p.offset, |calls|);
    if Accounts.AtCap(cfg, p.iteration) {
      EndCloses([], MaxIterations, []);
      assert says == [] + [TurnFinished(MaxIterations)] + [];
    } else if w.toolError.Some? {
      EndCloses([batch], TurnCancelled, []);
      assert says == [batch] + [TurnFinished(TurnCancelled)] + [];
    } else if w.suspend {
      EndCloses([batch, RunSuspended], EndTurn, []);
      assert says == [batch, RunSuspended] + [TurnFinished(EndTurn)] + [];
    } else {
      EndCloses([batch], EndTurn, []);
      assert says == [batch] + [TurnFinished(EndTurn)] + [];
    }
  }

  lemma FailureCloses(cfg: Config, p: Plan, e: ModelError)
    ensures Closes(OnFailure(cfg, p, e).says, [TurnFailed])
  {
    hide Closes, EmergencyReset;
    var says := OnFailure(cfg, p, e).says;
    EndCloses([], TurnFailed, []);
    EndCloses([Wrote(CompactMark), Compacted], TurnFailed, []);
    assert says == [] + [TurnFinished(TurnFailed)] + []
        || says == [Wrote(CompactMark), Compacted] + [TurnFinished(TurnFailed)] + [];
  }

  lemma ReplyCloses(cfg: Config, s: State, p: Plan, w: World, reply: Reply)
    requires p.b == s.b && p.iteration == s.c.iteration
    ensures Closes(OnReply(cfg, p, w, reply).says, ReasonsOf(cfg, s, w, reply))
  {
    hide Closes, OnAnswer, OnBatch, OnFailure;
    match reply {
      case Failed(e) => FailureCloses(cfg, p, e);
      case Done(text, leaked, cleaned, usage, _) =>
        AnswerCloses(cfg, p, w, text, leaked, cleaned);
        AsideCloses([Used(usage)]);
        ClosesAfter([Used(usage)], OnAnswer(cfg, p, w, text, leaked, cleaned).says, ReasonsOf(cfg, s, w, reply));
      case Calls(text, calls, usage) =>
        BatchCloses(cfg, p, w, text, calls);
        AsideCloses([Used(usage)]);
        ClosesAfter([Used(usage)], OnBatch(cfg, p, w, text, calls).says, ReasonsOf(cfg, s, w, reply));
    }
  }

  function Copies(es: seq<Entry>, n: nat): seq<seq<Entry>> {
    seq(n, _ => es)
  }

  lemma {:induction false} RequestsSent(es: seq<Entry>, n: nat)
    ensures Accounts.Picked(Requests(es, n), RequestIn) == Copies(es, n)
    ensures Accounts.Picked(Requests(es, n), ReasonIn) == []
  {
    if n > 0 {
      assert Requests(es, n)[..n - 1] == Requests(es, n - 1);
      RequestsSent(es, n - 1);
    }
  }

  /** Where the trip stands when it asks the model. */
  function AskedWith(s: State, w: World): seq<Entry> {
    Context(s.entries + Voices(s.inbox.pending + w.typedBefore), w.compaction)
  }

  lemma MoveSends(cfg: Config, s: State, w: World)
    ensures var says, answer := MoveOf(cfg, PlanOf(s), w).says, Settle(w.attempts, 0);
            && Accounts.Picked(says, RequestIn)
               == (if Accounts.Asks(s, w) then Copies(AskedWith(s, w), answer.calls) else [])
            && Accounts.Picked(says, ReasonIn)
               == (if Accounts.Asks(s, w) then ReasonsOf(cfg, s, w, answer.reply) else [])
  {
    hide Accounts.Picked, Settle, Voices, OnReply, Requests, Copies, ReasonsOf;
    var notice, answer := SetNotice(s.goal) + ContextNotice(w.compaction), Settle(w.attempts, 0);
    AsideCloses(SetNotice(s.goal));
    AsideCloses([]);
    AsideCloses(notice);
    if Accounts.Asks(s, w) {
      var p, sent := AskedPlan(s, w), Requests(AskedWith(s, w), answer.calls);
      var rest := OnReply(cfg, p, w, answer.reply).says;
      ReplyCloses(cfg, s, p, w, answer.reply);
      RequestsSent(AskedWith(s, w), answer.calls);
      Accounts.PickedConcat(notice, sent, RequestIn);
      Accounts.PickedConcat(notice, sent, ReasonIn);
      Accounts.PickedConcat(notice + sent, rest, RequestIn);
      Accounts.PickedConcat(notice + sent, rest, ReasonIn);
      NothingAdds(Copies(AskedWith(s, w), answer.calls), ReasonsOf(cfg, s, w, answer.reply));
    }
  }

  lemma NothingAdds<A, B>(a: seq<A>, b: seq<B>)
    ensures [] + a + [] == a && [] + [] + b == b
  {
  }

  /**
   Every request of a trip carries the conversation as it stands after the top of the loop, one request a call; and a
   turn ends for the reason its answer gives, or not at all when the answer is to be repaired.
   */
  lemma PassSends(cfg: Config, s: State, w: World)
    requires s.inbox.accepting
    ensures var r, answer := Pass(cfg, s, w), Settle(w.attempts, 0);
            && Accounts.Picked(r.s.trace, RequestIn) == Accounts.Picked(s.trace, RequestIn)
               + (if Accounts.Asks(s, w) then Copies(AskedWith(s, w), answer.calls) else [])
            && Accounts.Picked(r.s.trace, ReasonIn) == Accounts.Picked(s.trace, ReasonIn)
               + (if Accounts.Asks(s, w) then ReasonsOf(cfg, s, w, answer.reply) else [])
  {
    hide Accounts.Picked, Pass, MoveOf, Settle, Digest, Copies, ReasonsOf, Voices;
    PassPlanned(cfg, s, w);
    MoveSends(cfg, s, w);
    var r, says := Pass(cfg, s, w), MoveOf(cfg, PlanOf(s), w).says;
    Accounts.PickedNoted(s.trace, RequestIn);
    Accounts.PickedNoted(r.s.trace, RequestIn);
    Accounts.PickedConcat(Digest(s.trace), says, RequestIn);
    Accounts.PickedNoted(s.trace, ReasonIn);
    Accounts.PickedNoted(r.s.trace, ReasonIn);
    Accounts.PickedConcat(Digest(s.trace), says, ReasonIn);
  }

  // ------------------------------------------------------------- what the model is told when a run goes round

  /** What a trip that goes round adds to the conversation it asked with. */
  function ToldNext(s: State, w: World, why: Why): seq<Entry> {
    var answer := Settle(w.attempts, 0);
    match (why, answer.reply)
    case (ForLeak, Done(_, _, cleaned, _, _)) => [Assistant(cleaned, []), User(FormatNotice)]
    case (ForInput, Done(_, _, _, _, _)) =>
      [Assistant(Kept(answer.reply), [])] + Voices(w.typedDuringModel + w.typedWhileClosing)
    case (ForHook, Done(_, _, _, _, _)) => [Assistant(Kept(answer.reply), []), User(HookFeedback(Reminder(w.hook)))]
    case (ForGoal, Done(_, _, _, _, _)) =>
      [Assistant(Kept(answer.reply), []), User(GoalFeedback(Reason(w.verdict)))]
    case (ForTools, Calls(text, calls, _)) =>
      var n := if (answer.cancelled || w.cancelTools) && w.started < |calls| then w.started else |calls|;
      [Assistant(text, calls), ToolResults(calls[..n])]
      + Voices(w.typedDuringModel + w.typedDuringTools + w.typedBeforeDrain)
    case _ => []
  }

  function Reminder(hook: HookOutcome): string {
    if hook.InjectFollowup? then hook.reminder else ""
  }

  function Reason(verdict: Verdict): string {
    if verdict.NotYet? then verdict.reason else ""
  }

  lemma StopTold(cfg: Config, p: Plan, w: World, kept: string)
    ensures var m := OnStop(cfg, p, w, kept);
            m.way.Round? ==>
              && (m.way.why == ForHook || (m.way.why == ForGoal && w.verdict.NotYet?))
              && m.to.entries == p.entries + [User(if m.way.why == ForHook then HookFeedback(Reminder(w.hook))
                                                   else GoalFeedback(Reason(w.verdict)))]
  {
  }

  lemma AnswerTold(cfg: Config, s: State, w: World)
    requires Settle(w.attempts, 0).reply.Done?
    ensures var p, reply := AskedPlan(s, w), Settle(w.attempts, 0).reply;
            var m := OnAnswer(cfg, p, w, reply.text, reply.leaked, reply.cleaned);
            m.way.Round? ==> m.way.why != ForReset && m.to.entries == p.entries + ToldNext(s, w, m.way.why)
  {
    hide OnStop, Voices, Settle;
    var p, reply := AskedPlan(s, w), Settle(w.attempts, 0).reply;
    var typed := w.typedDuringModel + w.typedWhileClosing;
    var q := p.(entries := p.entries + [Assistant(Kept(reply), [])] + Voices(typed), waiting := w.late);
    StopTold(cfg, q, w, Kept(reply));
    NobodySpoke();
  }

  lemma BatchTold(cfg: Config, s: State, w: World)
    requires Settle(w.attempts, 0).reply.Calls?
    ensures var p, reply := AskedPlan(s, w), Settle(w.attempts, 0).reply;
            var m := OnBatch(cfg, p, w, reply.text, reply.calls);
            m.way.Round? ==> m.way.why == ForTools && m.to.entries == p.entries + ToldNext(s, w, m.way.why)
  {
    hide Voices, Settle;
  }

  /**
   A trip that goes round, but for a reset, adds to the conversation the answer it got and, in this order, what is to
   be said about it: the results of the calls, what users typed, or the notice, reminder or reason that sends it round.
   */
  lemma PassTold(cfg: Config, s: State, w: World)
    requires s.inbox.accepting
    ensures var r := Pass(cfg, s, w);
            r.Again? && r.why != ForReset ==> r.s.entries == AskedWith(s, w) + ToldNext(s, w, r.why)
  {
    hide Pass, Digest, Settle, Voices, OnAnswer, OnBatch, EmergencyReset, Kept, ToldNext;
    PassPlanned(cfg, s, w);
    if Accounts.Asks(s, w) {
      match Settle(w.attempts, 0).reply {
        case Failed(_) =>
        case Done(_, _, _, _, _) => AnswerTold(cfg, s, w);
        case Calls(_, _, _) => BatchTold(cfg, s, w);
      }
    }
  }

  // ------------------------------------------------------------- what is handed back

  /** The text of an answer as the conversation and the caller get it. */
  function Kept(reply: Reply): string
    requires reply.Done?
  {
    if reply.leaked then reply.cleaned else reply.text
  }

  lemma StopHandsBack(cfg: Config, p: Plan, w: World, kept: string)
    ensures var m := OnStop(cfg, p, w, kept);
            m.way.Out? && m.way.outcome.Success? ==> m.way.outcome.text == kept && m.to.entries == p.entries
  {
  }

  lemma AnswerHandsBack(cfg: Config, p: Plan, w: World, reply: Reply)
    requires reply.Done?
    ensures var m := OnAnswer(cfg, p, w, reply.text, reply.leaked, reply.cleaned);
            m.way.Out? && m.way.outcome.Success? ==>
              && m.way.outcome.text == Kept(reply) && TextDone(reply.text) in m.says
              && m.to.entries != [] && m.to.entries[|m.to.entries| - 1] == Assistant(Kept(reply), [])
  {
    hide OnStop, Voices;
    var typed := p.waiting + w.typedWhileClosing;
    var q := p.(entries := p.entries + [Assistant(Kept(reply), [])] + Voices(typed), waiting := w.late);
    StopHandsBack(cfg, q, w, Kept(reply));
    NobodySpoke();
  }

  lemma PassHandsBack(cfg: Config, s: State, w: World)
    requires s.inbox.accepting
    ensures var r, reply := Pass(cfg, s, w), Settle(w.attempts, 0).reply;
            r.Leave? && r.outcome.Success? ==>
              && reply.Done? && r.outcome.text == Kept(reply)
              && r.s.entries != [] && r.s.entries[|r.s.entries| - 1] == Assistant(Kept(reply), [])
              && TextDone(reply.text) in r.s.trace
  {
    hide Pass, Digest, Settle, Voices, OnAnswer, OnBatch, EmergencyReset, Kept;
    PassPlanned(cfg, s, w);
    var r := Pass(cfg, s, w);
    if r.Leave? && r.outcome.Success? {
      var p, reply := AskedPlan(s, w), Settle(w.attempts, 0).reply;
      match reply {
        case Failed(_) =>
        case Done(text, leaked, cleaned, _, _) => AnswerHandsBack(cfg, p, w, reply);
        case Calls(text, calls, _) => BatchCancelled(cfg, p, w, text, calls);
      }
      SaysInTrace(s, r.s, MoveOf(cfg, PlanOf(s), w).says, TextDone(reply.text));
    }
  }

  lemma SaysInTrace(s: State, s1: State, says: seq<Act>, a: Act)
    requires Digest(s1.trace) == Digest(s.trace) + says && Noted(a) && a in says
    ensures a in s1.trace
  {
    hide Digest;
    Accounts.InDigest(s1.trace, a);
  }

  lemma NobodySpoke()
    ensures Voices([]) == []
  {
  }

  /** The caller gets what the model's last answer said, and so does the conversation, as its last entry. */
  lemma {:induction false} AnswerHandedBack(cfg: Config, s: State, script: seq<World>)
    requires s.inbox.accepting
    ensures var r, n := RunOver(cfg, s, script), RunPromises.Trips(cfg, s, script);
            r.Ended? && r.outcome.Success? ==>
              && 0 < n <= |script|
              && var reply := Settle(script[n - 1].attempts, 0).reply;
                 && reply.Done? && r.outcome.text == Kept(reply) && TextDone(reply.text) in r.s.trace
                 && r.s.entries != [] && r.s.entries[|r.s.entries| - 1] == Assistant(Kept(reply), [])
    decreases |script|
  {
    hide Pass, Epilogue, Settle, Goes, Kept;
    if script != [] {
      PassHandsBack(cfg, s, script[0]);
      GoesRound(cfg, s, script[0]);
      match Pass(cfg, s, script[0]) {
        case Again(s1, _) => AnswerHandedBack(cfg, s1, script[1..]);
        case Leave(s1, outcome) => EpilogueHandsBack(s1, outcome, script[0]);
        case Drop(_) =>
      }
    }
  }

  lemma EpilogueHandsBack(s: State, outcome: Outcome, w: World)
    ensures Epilogue(s, outcome, w).entries == s.entries
    ensures forall text :: TextDone(text) in s.trace ==> TextDone(text) in Epilogue(s, outcome, w).trace
  {
    hide Epilogue, Digest;
    EpiloguePlanned(s, outcome, w);
    forall text | TextDone(text) in s.trace ensures TextDone(text) in Epilogue(s, outcome, w).trace {
      Accounts.InDigest(s.trace, TextDone(text));
      Accounts.InDigest(Epilogue(s, outcome, w).trace, TextDone(text));
    }
  }

  // ------------------------------------------------------------- over suspensions

  lemma {:induction false} EndsInLastSegment(cfg: Config, s: State, script: seq<World>, legs: seq<Leg>)
    requires s.inbox.accepting
    ensures var (start, last) := LogicalRuns.LastSegment(cfg, s, script, legs);
            start.inbox.accepting && LogicalRun(cfg, s, script, legs) == RunOver(cfg, start, last)
    decreases |legs|
  {
    hide RunOver, LogicalRuns.Rise;
    LogicalRuns.LogicalRunStep(cfg, s, script, legs);
    var r := RunOver(cfg, s, script);
    if LogicalRuns.WakesUp(r, legs) {
      LogicalRuns.SleepsWithCheckpoint(cfg, s, script);
      RisePlanned(r, legs[0]);
      EndsInLastSegment(cfg, LogicalRuns.Rise(r, legs[0]), legs[0].script, legs[1..]);
    }
  }

  /** Both over suspensions: the last segment decides, and a cancel that a sleep has swallowed does not count. */
  lemma LastSegmentDecides(cfg: Config, s: State, script: seq<World>, legs: seq<Leg>)
    requires s.inbox.accepting
    ensures var r := LogicalRun(cfg, s, script, legs);
            var (start, last) := LogicalRuns.LastSegment(cfg, s, script, legs);
            var n := RunPromises.Trips(cfg, start, last);
            && (r.Ended? && r.outcome == Failure(Cancelled) <==> CancelledIn(cfg, start, last))
            && (r.Ended? && r.outcome.Success? ==>
                  && 0 < n <= |last|
                  && var reply := Settle(last[n - 1].attempts, 0).reply;
                     && reply.Done? && r.outcome.text == Kept(reply) && TextDone(reply.text) in r.s.trace
                     && r.s.entries != [] && r.s.entries[|r.s.entries| - 1] == Assistant(Kept(reply), []))
  {
    hide LogicalRun, RunOver, LogicalRuns.LastSegment, CancelledIn, Settle;
    EndsInLastSegment(cfg, s, script, legs);
    var (start, last) := LogicalRuns.LastSegment(cfg, s, script, legs);
    CancelledWhen(cfg, start, last);
    AnswerHandedBack(cfg, start, last);
  }
}
