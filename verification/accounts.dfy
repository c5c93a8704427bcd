/** A run's reports against the answers it got: usage, tool batches, turns and the cap on tool iterations. */
module Accounts {
  import opened Transcript
  import opened Options
  import opened Retry
  import opened AgentLoop
  import opened Plans
  import Journal
  import Ledgers
  import RunEvents
  import LogicalRuns
  import Resume
  import RunPromises

  /** The trip gets as far as asking the model. */
  predicate Asks(s: State, w: World) {
    !s.cancelled && !w.cancelBefore && !w.compaction.CompactionCancelled?
  }

  /** What the model steps of a run hand to the loop, in order. */
  function Answers(cfg: Config, s: State, script: seq<World>): seq<Reply>
    decreases |script|
  {
    if script == [] then []
    else
      var r := Pass(cfg, s, script[0]);
      (if Asks(s, script[0]) then [Settle(script[0].attempts, 0).reply] else []) +
      if r.Again? then Answers(cfg, r.s, script[1..]) else []
  }

  function AllAnswers(cfg: Config, s: State, script: seq<World>, legs: seq<Leg>): seq<Reply>
    decreases |legs|
  {
    var r := RunOver(cfg, s, script);
    Answers(cfg, s, script) +
    if LogicalRuns.WakesUp(r, legs) then
      AllAnswers(cfg, LogicalRuns.Rise(r, legs[0]), legs[0].script, legs[1..])
    else []
  }

  function UsagesOf(replies: seq<Reply>): seq<Usage> {
    if replies == [] then []
    else
      var last := replies[|replies| - 1];
      UsagesOf(replies[..|replies| - 1]) + if last.Failed? then [] else [last.usage]
  }

  /** How many calls each answer that asks for tools makes. */
  function SizesOf(replies: seq<Reply>): seq<nat> {
    if replies == [] then []
    else
      var last := replies[|replies| - 1];
      SizesOf(replies[..|replies| - 1]) + if last.Calls? then [|last.calls|] else []
  }

  // What a trace has of one kind.

  function Picked<T>(t: Trace, f: Act -> Option<T>): seq<T> {
    if t == [] then []
    else
      var o := f(t[|t| - 1]);
      Picked(t[..|t| - 1], f) + if o.Some? then [o.value] else []
  }

  function UsageIn(a: Act): Option<Usage> {
    if a.Used? then Some(a.usage) else None
  }

  function SizeIn(a: Act): Option<nat> {
    if a.Dispatched? then Some(a.size) else None
  }

  function Sum(us: seq<Usage>, part: Usage -> nat): nat {
    if us == [] then 0 else Sum(us[..|us| - 1], part) + part(us[|us| - 1])
  }

  function Input(u: Usage): nat { u.input }
  function Output(u: Usage): nat { u.output }
  function CacheRead(u: Usage): nat { u.cacheRead }
  function CacheWrite(u: Usage): nat { u.cacheWrite }

  // ------------------------------------------------------------- picking

  lemma {:induction false} PickedConcat<T>(a: Trace, b: Trace, f: Act -> Option<T>)
    ensures Picked(a + b, f) == Picked(a, f) + Picked(b, f)
    decreases |b|
  {
    if b == [] {
      assert a + b == a;
      assert Picked(a, f) + [] == Picked(a, f);
    } else {
      assert (a + b)[..|a + b| - 1] == a + b[..|b| - 1];
      PickedConcat(a, b[..|b| - 1], f);
    }
  }

  lemma {:induction false} NothingPicked<T>(t: Trace, f: Act -> Option<T>)
    requires forall a :: a in t ==> f(a).None?
    ensures Picked(t, f) == []
  {
    if t != [] {
      NothingPicked(t[..|t| - 1], f);
    }
  }

  lemma PickedOne<T>(a: Act, f: Act -> Option<T>)
    ensures Picked([a], f) == if f(a).Some? then [f(a).value] else []
  {
    assert [a][..0] == [];
  }

  lemma {:induction false} PickedNoted<T>(t: Trace, f: Act -> Option<T>)
    requires forall a :: f(a).Some? ==> Noted(a)
    ensures Picked(Digest(t), f) == Picked(t, f)
  {
    if t != [] {
      var front, a := t[..|t| - 1], t[|t| - 1];
      PickedNoted(front, f);
      PickedConcat(Digest(front), [a], f);
      PickedOne(a, f);
      assert Digest(front) + [] == Digest(front);
    }
  }

  lemma {:induction false} InDigest(t: Trace, a: Act)
    requires Noted(a)
    ensures a in t <==> a in Digest(t)
  {
    if t != [] {
      InDigest(t[..|t| - 1], a);
      assert t == t[..|t| - 1] + [t[|t| - 1]];
    }
  }

  lemma {:induction false} UsagesConcat(a: seq<Reply>, b: seq<Reply>)
    ensures UsagesOf(a + b) == UsagesOf(a) + UsagesOf(b) && SizesOf(a + b) == SizesOf(a) + SizesOf(b)
    decreases |b|
  {
    if b == [] {
      assert a + b == a && UsagesOf(a) + [] == UsagesOf(a) && SizesOf(a) + [] == SizesOf(a);
    } else {
      assert (a + b)[..|a + b| - 1] == a + b[..|b| - 1];
      UsagesConcat(a, b[..|b| - 1]);
    }
  }

  lemma OneReply(reply: Reply)
    ensures UsagesOf([reply]) == if reply.Failed? then [] else [reply.usage]
    ensures SizesOf([reply]) == if reply.Calls? then [|reply.calls|] else []
  {
    assert [reply][..0] == [];
  }

  lemma {:induction false} SumConcat(a: seq<Usage>, b: seq<Usage>, part: Usage -> nat)
    ensures Sum(a + b, part) == Sum(a, part) + Sum(b, part)
    decreases |b|
  {
    if b == [] {
      assert a + b == a;
    } else {
      assert (a + b)[..|a + b| - 1] == a + b[..|b| - 1];
      SumConcat(a, b[..|b| - 1], part);
    }
  }

  lemma {:induction false} SumsUsed(t: Trace)
    ensures var sum, us := RunEvents.SumUsed(t), Picked(t, UsageIn);
            && sum.input == Sum(us, Input) && sum.output == Sum(us, Output)
            && sum.cacheRead == Sum(us, CacheRead) && sum.cacheWrite == Sum(us, CacheWrite)
  {
    if t != [] {
      SumsUsed(t[..|t| - 1]);
      var us := Picked(t[..|t| - 1], UsageIn);
      if t[|t| - 1].Used? {
        assert (us + [t[|t| - 1].usage])[..|us|] == us;
      } else {
        assert us + [] == us;
      }
    }
  }

  // ------------------------------------------------------------- one trip

  predicate AtCap(cfg: Config, iteration: nat) {
    cfg.maxToolIterations.Some? && iteration >= cfg.maxToolIterations.value
  }

  /** What the rest of a trip says has nothing of this in it. */
  predicate Plain(says: seq<Act>) {
    forall a :: a in says ==> !a.Used? && !a.Dispatched? && a != TurnFinished(MaxIterations)
  }

  lemma VerdictPlain(cfg: Config, p: Plan, w: World, kept: string)
    ensures Plain(OnVerdict(cfg, p, w, kept).says) && OnVerdict(cfg, p, w, kept).to.iteration == p.iteration
  {
  }

  lemma StopPlain(cfg: Config, p: Plan, w: World, kept: string)
    ensures Plain(OnStop(cfg, p, w, kept).says) && OnStop(cfg, p, w, kept).to.iteration == p.iteration
  {
    hide OnVerdict;
    VerdictPlain(cfg, p, w, kept);
  }

  lemma AnswerPlain(cfg: Config, p: Plan, w: World, text: string, leaked: bool, cleaned: string)
    ensures Plain(OnAnswer(cfg, p, w, text, leaked, cleaned).says)
    ensures OnAnswer(cfg, p, w, text, leaked, cleaned).to.iteration == p.iteration
  {
    hide Voices, OnStop;
    var kept, typed := (if leaked then cleaned else text), p.waiting + w.typedWhileClosing;
    StopPlain(cfg, p.(entries := p.entries + [Assistant(kept, [])] + Voices(typed), waiting := w.late), w, kept);
  }

  lemma BatchPlain(p: Plan, w: World, calls: seq<CallId>)
    ensures Plain(AfterBatch(p, w, calls).says) && AfterBatch(p, w, calls).to.iteration == p.iteration
  {
    hide Voices;
  }

  lemma PlainPicks(says: seq<Act>)
    requires Plain(says)
    ensures Picked(says, UsageIn) == [] && Picked(says, SizeIn) == [] && TurnFinished(MaxIterations) !in says
  {
    NothingPicked(says, UsageIn);
    NothingPicked(says, SizeIn);
  }

  /** What a trip has to report of its answer. */
  predicate Reports(cfg: Config, p: Plan, reply: Reply, m: Move) {
    var capped := reply.Calls? && AtCap(cfg, p.iteration);
    && Picked(m.says, UsageIn) == UsagesOf([reply])
    && Picked(m.says, SizeIn) == (if capped then [] else SizesOf([reply]))
    && (TurnFinished(MaxIterations) in m.says <==> capped)
    && m.to.iteration == p.iteration + (if reply.Calls? && !capped then 1 else 0)
    && (capped ==> m.way == Out(Failure(Other(false))))
  }

  lemma ReplyReports(cfg: Config, p: Plan, w: World, reply: Reply)
    ensures Reports(cfg, p, reply, OnReply(cfg, p, w, reply))
  {
    hide Picked, UsagesOf, SizesOf, OnAnswer, AfterBatch;
    OneReply(reply);
    var m := OnReply(cfg, p, w, reply);
    match reply {
      case Failed(e) =>
        PlainPicks(m.says);
      case Done(text, leaked, cleaned, usage, _) =>
        AnswerPlain(cfg, p, w, text, leaked, cleaned);
        UsePicks(usage, OnAnswer(cfg, p, w, text, leaked, cleaned).says);
      case Calls(text, calls, usage) =>
        BatchReports(cfg, p, w, text, calls);
        UseFirst(usage, OnBatch(cfg, p, w, text, calls).says);
    }
  }

  lemma UseFirst(usage: Usage, says: seq<Act>)
    ensures Picked([Used(usage)] + says, UsageIn) == [usage] + Picked(says, UsageIn)
    ensures Picked([Used(usage)] + says, SizeIn) == Picked(says, SizeIn)
  {
    hide Picked;
    PickedConcat([Used(usage)], says, UsageIn);
    PickedConcat([Used(usage)], says, SizeIn);
    PickedOne(Used(usage), UsageIn);
    PickedOne(Used(usage), SizeIn);
    assert [] + Picked(says, SizeIn) == Picked(says, SizeIn);
  }

  lemma UsePicks(usage: Usage, says: seq<Act>)
    requires Plain(says)
    ensures Picked([Used(usage)] + says, UsageIn) == [usage] && Picked([Used(usage)] + says, SizeIn) == []
    ensures TurnFinished(MaxIterations) !in [Used(usage)] + says
  {
    hide Picked;
    UseFirst(usage, says);
    PlainPicks(says);
  }

  lemma BatchReports(cfg: Config, p: Plan, w: World, text: string, calls: seq<CallId>)
    ensures var m, capped := OnBatch(cfg, p, w, text, calls), AtCap(cfg, p.iteration);
            && Picked(m.says, UsageIn) == [] && Picked(m.says, SizeIn) == (if capped then [] else [|calls|])
            && (TurnFinished(MaxIterations) in m.says <==> capped)
            && m.to.iteration == p.iteration + (if capped then 0 else 1)
            && (capped ==> m.way == Out(Failure(Other(false))))
  {
    hide Picked, AfterBatch;
    if AtCap(cfg, p.iteration) {
      PickedOne(TurnFinished(MaxIterations), UsageIn);
      PickedOne(TurnFinished(MaxIterations), SizeIn);
    } else {
      var q := p.(entries := p.entries + [Assistant(text, calls)], iteration := p.iteration + 1,
                  cancelled := p.cancelled || w.cancelTools, waiting := p.waiting + w.typedDuringTools);
      BatchPlain(q, w, calls);
      var rest, batch := AfterBatch(q, w, calls).says, Dispatched(p.offset, |calls|);
      PlainPicks(rest);
      PickedConcat([batch], rest, UsageIn);
      PickedConcat([batch], rest, SizeIn);
      PickedOne(batch, UsageIn);
      PickedOne(batch, SizeIn);
    }
  }

  lemma NoticePlain(goal: Option<Goal>, compaction: Compaction, es: seq<Entry>, n: nat)
    ensures Plain(SetNotice(goal) + ContextNotice(compaction) + Requests(es, n)) && Plain(SetNotice(goal))
  {
  }

  /** The answers of one trip: one or none. */
  function Heard(s: State, w: World): seq<Reply> {
    if Asks(s, w) then [Settle(w.attempts, 0).reply] else []
  }

  lemma MoveReports(cfg: Config, s: State, w: World)
    ensures var p, m := PlanOf(s), MoveOf(cfg, PlanOf(s), w);
            if Asks(s, w) then Reports(cfg, p, Settle(w.attempts, 0).reply, m)
            else Plain(m.says) && m.to.iteration == p.iteration && !m.way.Round?
  {
    hide Picked, UsagesOf, SizesOf, Settle, OnReply, Voices, SetNotice, ContextNotice, Requests;
    var p := PlanOf(s);
    NoticePlain(p.goal, w.compaction, [], 0);
    if Asks(s, w) {
      var answer := Settle(w.attempts, 0);
      var top := p.(entries := p.entries + Voices(p.waiting + w.typedBefore), waiting := [], cancelled := false,
                    goal := Announced(p.goal));
      var asked := top.(entries := Context(top.entries, w.compaction), waiting := w.typedDuringModel,
                        cancelled := answer.cancelled, goal := Edited(top.goal, w.goalEdit));
      var notice := SetNotice(p.goal) + ContextNotice(w.compaction) + Requests(asked.entries, answer.calls);
      NoticePlain(p.goal, w.compaction, asked.entries, answer.calls);
      ReplyReports(cfg, asked, w, answer.reply);
      PlainPicks(notice);
      var rest := OnReply(cfg, asked, w, answer.reply).says;
      PickedConcat(notice, rest, UsageIn);
      PickedConcat(notice, rest, SizeIn);
      assert [] + Picked(rest, UsageIn) == Picked(rest, UsageIn) && [] + Picked(rest, SizeIn) == Picked(rest, SizeIn);
    }
  }

  /** The sizes of the batches handed to the dispatcher: of all answers, or, at the cap, of all but the last. */
  function Handed(replies: seq<Reply>, capped: bool): seq<nat>
    requires capped ==> replies != []
  {
    SizesOf(if capped then replies[..|replies| - 1] else replies)
  }

  /** What `more` answers have added to what was there. */
  predicate Added(cfg: Config, s: State, s1: State, more: seq<Reply>, capped: bool) {
    && Picked(s1.trace, UsageIn) == Picked(s.trace, UsageIn) + UsagesOf(more)
    && (capped ==> more != [] && more[|more| - 1].Calls? && AtCap(cfg, s1.c.iteration))
    && Picked(s1.trace, SizeIn) == Picked(s.trace, SizeIn) + Handed(more, capped)
    && s1.c.iteration == s.c.iteration + |Handed(more, capped)|
    && (TurnFinished(MaxIterations) in s1.trace <==> capped || TurnFinished(MaxIterations) in s.trace)
  }

  lemma DigestGrows(s: State, s1: State, says: seq<Act>)
    requires Digest(s1.trace) == Digest(s.trace) + says
    ensures Picked(s1.trace, UsageIn) == Picked(s.trace, UsageIn) + Picked(says, UsageIn)
    ensures Picked(s1.trace, SizeIn) == Picked(s.trace, SizeIn) + Picked(says, SizeIn)
    ensures TurnFinished(MaxIterations) in s1.trace <==>
              TurnFinished(MaxIterations) in s.trace || TurnFinished(MaxIterations) in says
  {
    hide Picked, Digest;
    PickedNoted(s.trace, UsageIn);
    PickedNoted(s1.trace, UsageIn);
    PickedConcat(Digest(s.trace), says, UsageIn);
    PickedNoted(s.trace, SizeIn);
    PickedNoted(s1.trace, SizeIn);
    PickedConcat(Digest(s.trace), says, SizeIn);
    InDigest(s.trace, TurnFinished(MaxIterations));
    InDigest(s1.trace, TurnFinished(MaxIterations));
  }

  predicate CapReached(cfg: Config, s: State, w: World) {
    Asks(s, w) && Settle(w.attempts, 0).reply.Calls? && AtCap(cfg, s.c.iteration)
  }

  lemma PassAdds(cfg: Config, s: State, w: World)
    requires s.inbox.accepting
    ensures var r := Pass(cfg, s, w);
            && Added(cfg, s, r.s, Heard(s, w), CapReached(cfg, s, w))
            && (CapReached(cfg, s, w) ==> r.Leave? && r.outcome == Failure(Other(false)))
            && (r.Again? ==> r.s.inbox.accepting && Asks(s, w))
  {
    hide Picked, UsagesOf, SizesOf, Settle, Pass, MoveOf, Digest;
    PassPlanned(cfg, s, w);
    MoveReports(cfg, s, w);
    var r, m := Pass(cfg, s, w), MoveOf(cfg, PlanOf(s), w);
    DigestGrows(s, r.s, m.says);
    NoAnswers();
    if Asks(s, w) {
      var reply := Settle(w.attempts, 0).reply;
      assert Heard(s, w) == [reply] && [reply][..0] == [];
      assert Picked(m.says, SizeIn) == Handed([reply], CapReached(cfg, s, w));
      OneReply(reply);
    } else {
      PlainPicks(m.says);
      assert Handed([], false) == [];
    }
  }

  lemma NoAnswers()
    ensures UsagesOf([]) == [] && SizesOf([]) == []
  {
  }

  lemma AddedTwice(cfg: Config, s: State, s1: State, s2: State, a: seq<Reply>, b: seq<Reply>, capped: bool)
    requires Added(cfg, s, s1, a, false) && Added(cfg, s1, s2, b, capped)
    ensures Added(cfg, s, s2, a + b, capped)
  {
    hide Picked, UsagesOf, SizesOf;
    UsagesConcat(a, b);
    UsagesConcat(a, if capped then b[..|b| - 1] else b);
    if capped {
      assert (a + b)[..|a + b| - 1] == a + b[..|b| - 1];
    }
  }

  // ------------------------------------------------------------- runs

  lemma EpilogueAdds(cfg: Config, s: State, s1: State, outcome: Outcome, w: World, more: seq<Reply>, capped: bool)
    requires Added(cfg, s, s1, more, capped)
    ensures Added(cfg, s, Epilogue(s1, outcome, w), more, capped)
  {
    hide Picked, UsagesOf, SizesOf, Epilogue, Digest;
    EpiloguePlanned(s1, outcome, w);
    DigestGrows(s1, Epilogue(s1, outcome, w), Farewell(Out(outcome)));
    PlainPicks(Farewell(Out(outcome)));
  }

  /** A trip of the run asks for tools at the cap. */
  predicate RunCapped(cfg: Config, s: State, script: seq<World>)
    decreases |script|
  {
    script != [] &&
    (CapReached(cfg, s, script[0]) ||
     (var r := Pass(cfg, s, script[0]);
      r.Again? && RunCapped(cfg, r.s, script[1..])))
  }

  predicate Capped(cfg: Config, s: State, script: seq<World>, legs: seq<Leg>)
    decreases |legs|
  {
    var r := RunOver(cfg, s, script);
    if LogicalRuns.WakesUp(r, legs) then Capped(cfg, LogicalRuns.Rise(r, legs[0]), legs[0].script, legs[1..])
    else RunCapped(cfg, s, script)
  }

  lemma {:induction false} RunAdds(cfg: Config, s: State, script: seq<World>)
    requires s.inbox.accepting
    ensures var r, capped := RunOver(cfg, s, script), RunCapped(cfg, s, script);
            && Added(cfg, s, r.s, Answers(cfg, s, script), capped)
            && (capped ==> r.Ended? && r.outcome == Failure(Other(false)))
    decreases |script|
  {
    hide Picked, UsagesOf, SizesOf, Pass, Epilogue, Asks, CapReached, Added;
    if script == [] {
      NothingAdded(cfg, s);
    } else {
      var w, r := script[0], Pass(cfg, s, script[0]);
      PassAdds(cfg, s, w);
      assert Heard(s, w) + [] == Heard(s, w);
      match r {
        case Again(s1, _) =>
          RunAdds(cfg, s1, script[1..]);
          AddedTwice(cfg, s, s1, RunOver(cfg, s1, script[1..]).s, Heard(s, w), Answers(cfg, s1, script[1..]),
                     RunCapped(cfg, s1, script[1..]));
        case Leave(s1, outcome) =>
          EpilogueAdds(cfg, s, s1, outcome, w, Heard(s, w), CapReached(cfg, s, w));
        case Drop(_) =>
      }
    }
  }

  lemma NothingAdded(cfg: Config, s: State)
    ensures Added(cfg, s, s, [], false)
  {
    NoAnswers();
  }

  lemma RiseAdds(cfg: Config, s: State, r: Run, leg: Leg, more: seq<Reply>)
    requires r.s.checkpoint == Some(r.s.c) && Added(cfg, s, r.s, more, false)
    ensures Added(cfg, s, LogicalRuns.Rise(r, leg), more, false)
  {
    hide Picked, UsagesOf, SizesOf, LogicalRuns.Rise, Digest;
    RisePlanned(r, leg);
    DigestGrows(r.s, LogicalRuns.Rise(r, leg), [RunResumed]);
    PlainPicks([RunResumed]);
  }

  lemma {:induction false} LogicalRunAdds(cfg: Config, s: State, script: seq<World>, legs: seq<Leg>)
    requires s.inbox.accepting
    ensures var r, capped := LogicalRun(cfg, s, script, legs), Capped(cfg, s, script, legs);
            && Added(cfg, s, r.s, AllAnswers(cfg, s, script, legs), capped)
            && (capped ==> r.Ended? && r.outcome == Failure(Other(false)))
    decreases |legs|
  {
    hide Added, RunOver, LogicalRuns.Rise, Answers, RunCapped;
    LogicalRuns.LogicalRunStep(cfg, s, script, legs);
    RunAdds(cfg, s, script);
    var r := RunOver(cfg, s, script);
    if LogicalRuns.WakesUp(r, legs) {
      LogicalRuns.SleepsWithCheckpoint(cfg, s, script);
      RiseAdds(cfg, s, r, legs[0], Answers(cfg, s, script));
      var s1 := LogicalRuns.Rise(r, legs[0]);
      RisePlanned(r, legs[0]);
      LogicalRunAdds(cfg, s1, legs[0].script, legs[1..]);
      AddedTwice(cfg, s, s1, LogicalRun(cfg, s1, legs[0].script, legs[1..]).s, Answers(cfg, s, script),
                 AllAnswers(cfg, s1, legs[0].script, legs[1..]), Capped(cfg, s1, legs[0].script, legs[1..]));
    } else {
      assert Answers(cfg, s, script) + [] == Answers(cfg, s, script);
    }
  }

  // ------------------------------------------------------------- theorems

  /**
   Over all segments, the usage a run reports is that of the answers it got, one by one and in order, and each of its
   four totals has grown by the sum of that figure over those answers.
   */
  lemma UsageOfAnswers(cfg: Config, s: State, script: seq<World>, legs: seq<Leg>)
    requires Ledgers.AtTop(s) && s.inbox.accepting
    ensures var r := LogicalRun(cfg, s, script, legs);
            var us, total, before := UsagesOf(AllAnswers(cfg, s, script, legs)), r.s.c.total, s.c.total;
            && Picked(r.s.trace, UsageIn) == Picked(s.trace, UsageIn) + us
            && total.input == before.input + Sum(us, Input)
            && total.output == before.output + Sum(us, Output)
            && total.cacheRead == before.cacheRead + Sum(us, CacheRead)
            && total.cacheWrite == before.cacheWrite + Sum(us, CacheWrite)
  {
    hide LogicalRun, AllAnswers, Picked, UsagesOf, SizesOf, Sum, Ledgers.LedgerOf, RunEvents.SumUsed, Capped;
    LogicalRunAdds(cfg, s, script, legs);
    RunEvents.TokensConserved(cfg, s, script, legs);
    RunEvents.UsageRead(s.trace);
    SumsUsed(s.trace);
    SumsUsed(LogicalRun(cfg, s, script, legs).s.trace);
    var us, before := UsagesOf(AllAnswers(cfg, s, script, legs)), Picked(s.trace, UsageIn);
    SumConcat(before, us, Input);
    SumConcat(before, us, Output);
    SumConcat(before, us, CacheRead);
    SumConcat(before, us, CacheWrite);
  }

  /**
   Every answer that asks for tools is dispatched, with all its calls, and counts as one iteration; only the cap stops
   a run short of that, at its last answer. Then the run fails with `MaxIterations` as the turn's reason, and the
   iterations are as many as the cap allows.
   */
  lemma DispatchedUpToCap(cfg: Config, s: State, script: seq<World>, legs: seq<Leg>)
    requires s.inbox.accepting
    ensures var r, answers := LogicalRun(cfg, s, script, legs), AllAnswers(cfg, s, script, legs);
            var capped := Capped(cfg, s, script, legs);
            && (capped ==> r.Ended? && r.outcome == Failure(Other(false)) && answers != [])
            && (capped ==> answers[|answers| - 1].Calls? && AtCap(cfg, r.s.c.iteration))
            && Picked(r.s.trace, SizeIn) == Picked(s.trace, SizeIn) + Handed(answers, capped)
            && r.s.c.iteration == s.c.iteration + |Handed(answers, capped)|
            && (TurnFinished(MaxIterations) in r.s.trace <==> capped || TurnFinished(MaxIterations) in s.trace)
            && forall max :: cfg.maxToolIterations == Some(max) && s.c.iteration <= max ==>
                 r.s.c.iteration <= max && (capped ==> r.s.c.iteration == max)
  {
    hide LogicalRun, AllAnswers, Picked, SizesOf, UsagesOf, Capped;
    LogicalRunAdds(cfg, s, script, legs);
    if cfg.maxToolIterations.Some? && s.c.iteration <= cfg.maxToolIterations.value {
      WithinCap(cfg, s, script, legs, cfg.maxToolIterations.value);
    }
  }

  lemma PassTurns(cfg: Config, s: State, w: World)
    ensures Pass(cfg, s, w).s.c.modelStep == s.c.modelStep + |Heard(s, w)|
  {
    hide Boundary, ModelStep, Answer, Settle;
    Resume.BoundaryCounters(s, w);
    if Asks(s, w) {
      Resume.GoesOn(cfg, s, w);
      RunPromises.PassDrops(cfg, s, w);
    } else {
      StopsAtTop(s, w);
    }
  }

  lemma StopsAtTop(s: State, w: World)
    requires !Asks(s, w)
    ensures !Boundary(s, w).Go?
  {
    hide Drain, Install, MaybeSetMarker;
    if !(s.cancelled || w.cancelBefore) {
      Journal.DrainFrame(Arrive(s, w.typedBefore).(cancelled := false));
    }
  }

  lemma {:induction false} RunTurns(cfg: Config, s: State, script: seq<World>)
    ensures RunOver(cfg, s, script).s.c.modelStep == s.c.modelStep + |Answers(cfg, s, script)|
    decreases |script|
  {
    hide Pass, Epilogue, Asks;
    if script != [] {
      PassTurns(cfg, s, script[0]);
      match Pass(cfg, s, script[0]) {
        case Again(s1, _) => RunTurns(cfg, s1, script[1..]);
        case Leave(s1, outcome) => Resume.EpilogueCounters(s1, outcome, script[0]);
        case Drop(_) =>
      }
    }
  }

  lemma {:induction false} LogicalRunTurns(cfg: Config, s: State, script: seq<World>, legs: seq<Leg>)
    ensures LogicalRun(cfg, s, script, legs).s.c.modelStep == s.c.modelStep + |AllAnswers(cfg, s, script, legs)|
    decreases |legs|
  {
    hide RunOver, LogicalRuns.Rise, Answers;
    LogicalRuns.LogicalRunStep(cfg, s, script, legs);
    RunTurns(cfg, s, script);
    var r := RunOver(cfg, s, script);
    if LogicalRuns.WakesUp(r, legs) {
      LogicalRuns.SleepsWithCheckpoint(cfg, s, script);
      RiseCounts(r, legs[0]);
      LogicalRunTurns(cfg, LogicalRuns.Rise(r, legs[0]), legs[0].script, legs[1..]);
    }
  }

  lemma RiseCounts(r: Run, leg: Leg)
    requires r.s.checkpoint == Some(r.s.c)
    ensures LogicalRuns.Rise(r, leg).c == r.s.c
  {
  }

  /** Each answer is a turn of its own, and there are no other turns. */
  lemma OneTurnPerAnswer(cfg: Config, s: State, script: seq<World>, legs: seq<Leg>)
    requires Ledgers.AtTop(s)
    ensures RunEvents.Count(LogicalRun(cfg, s, script, legs).s.trace, RunEvents.IsTurnStart)
            == RunEvents.Count(s.trace, RunEvents.IsTurnStart) + |AllAnswers(cfg, s, script, legs)|
  {
    hide LogicalRun, AllAnswers, RunEvents.Count, Ledgers.LedgerOf;
    LogicalRunTurns(cfg, s, script, legs);
    Ledgers.LogicalRunBooks(cfg, s, script, legs);
    RunEvents.TurnsRead(s.trace);
    RunEvents.TurnsRead(LogicalRun(cfg, s, script, legs).s.trace);
  }

  lemma {:induction false} RunWithinCap(cfg: Config, s: State, script: seq<World>, max: nat)
    requires cfg.maxToolIterations == Some(max) && s.c.iteration <= max
    ensures RunOver(cfg, s, script).s.c.iteration <= max
    decreases |script|
  {
    hide Pass, Epilogue;
    if script != [] {
      Resume.PassIterates(cfg, s, script[0]);
      match Pass(cfg, s, script[0]) {
        case Again(s1, _) => RunWithinCap(cfg, s1, script[1..], max);
        case Leave(s1, outcome) => Resume.EpilogueCounters(s1, outcome, script[0]);
        case Drop(_) =>
      }
    }
  }

  lemma {:induction false} WithinCap(cfg: Config, s: State, script: seq<World>, legs: seq<Leg>, max: nat)
    requires cfg.maxToolIterations == Some(max) && s.c.iteration <= max
    ensures LogicalRun(cfg, s, script, legs).s.c.iteration <= max
    decreases |legs|
  {
    hide RunOver, LogicalRuns.Rise;
    LogicalRuns.LogicalRunStep(cfg, s, script, legs);
    RunWithinCap(cfg, s, script, max);
    var r := RunOver(cfg, s, script);
    if LogicalRuns.WakesUp(r, legs) {
      LogicalRuns.SleepsWithCheckpoint(cfg, s, script);
      RisePlanned(r, legs[0]);
      WithinCap(cfg, LogicalRuns.Rise(r, legs[0]), legs[0].script, legs[1..], max);
    }
  }
}
