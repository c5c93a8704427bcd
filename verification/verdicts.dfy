/** What a run tells of its goal is what the judge said: "not yet" as progress, and the last word as it was given. */
module Verdicts {
  import opened Transcript
  import opened Options
  import opened Retry
  import opened AgentLoop
  import opened Plans
  import opened RunPromises
  import Accounts
  import Journal
  import LogicalRuns
  import RunEvents

  /** What of a trace is about goals, openers included. */
  function GoalAct(a: Act): Option<Act> {
    match a
    case GoalProgressed(_) => Some(a)
    case GoalAchieved => Some(a)
    case GoalImpossible => Some(a)
    case RunStarted => Some(a)
    case RunResumed => Some(a)
    case Wrote(line) => if line.GoalMark? then Some(a) else None
    case _ => None
  }

  function Tale(t: Trace): seq<Act> {
    Accounts.Picked(t, GoalAct)
  }

  /** Progress from `i + 1` to `j`, each written and announced. */
  function Pursuit(i: nat, j: nat): seq<Act>
    requires i <= j
  {
    if i == j then [] else Pursuit(i, j - 1) + [Wrote(GoalMark(Progress, j)), GoalProgressed(j)]
  }

  function LastWord(verdict: Verdict, n: nat): seq<Act> {
    match verdict
    case IsAchieved => [Wrote(GoalMark(Achieved, n)), GoalAchieved]
    case IsImpossible => [Wrote(GoalMark(Impossible, n)), GoalImpossible]
    case NotYet(_) => []
  }

  predicate Pending(goal: Option<Goal>) {
    goal.Some? && goal.value.pendingSet
  }

  /** Where there is a goal and a judge, an answer that ends the run well has been judged. */
  predicate Judges(cfg: Config, goal: Option<Goal>) {
    goal.Some? && cfg.hasJudge
  }

  // ------------------------------------------------------------- one trip

  /** What a trip tells of its goal. */
  predicate Tells(cfg: Config, p: Plan, w: World, m: Move) {
    var n, concludes := p.b.goals, m.way.Out? && m.way.outcome.Success? && Judges(cfg, p.goal);
    && Tale(m.says) == (if m.way == Round(ForGoal) then Pursuit(n, n + 1)
                        else if concludes then LastWord(w.verdict, n) else [])
    && (concludes ==> !w.verdict.NotYet? && m.to.goal.None?)
    && (!concludes ==> (m.to.goal.Some? <==> p.goal.Some?))
    && !Pending(m.to.goal)
    && m.to.b.goals == n + (if m.way == Round(ForGoal) then 1 else 0)
  }

  predicate NoGoalAct(says: seq<Act>) {
    forall a :: a in says ==> GoalAct(a).None?
  }

  lemma TellsAfter(cfg: Config, p: Plan, w: World, m: Move, before: seq<Act>)
    requires Tells(cfg, p, w, m) && NoGoalAct(before)
    ensures Tells(cfg, p, w, m.Saying(before))
  {
    hide Accounts.Picked;
    Accounts.PickedConcat(before, m.says, GoalAct);
    Accounts.NothingPicked(before, GoalAct);
    assert [] + Tale(m.says) == Tale(m.says);
  }

  lemma TellsNothing(cfg: Config, p: Plan, w: World, m: Move)
    requires NoGoalAct(m.says) && !Pending(p.goal) && m.to.goal == p.goal && m.to.b.goals == p.b.goals
    requires m.way != Round(ForGoal) && !(m.way.Out? && m.way.outcome.Success?)
    ensures Tells(cfg, p, w, m)
  {
    hide Accounts.Picked;
    Accounts.NothingPicked(m.says, GoalAct);
  }

  lemma TwoActs(a: Act, b: Act)
    requires GoalAct(a) == Some(a) && GoalAct(b) == Some(b)
    ensures Tale([a, b]) == [a, b]
  {
    hide Accounts.Picked, GoalAct;
    Accounts.PickedOne(a, GoalAct);
    Accounts.PickedOne(b, GoalAct);
    Accounts.PickedConcat([a], [b], GoalAct);
    assert [a] + [b] == [a, b];
  }

  lemma NoTale()
    ensures Tale([]) == []
  {
  }

  lemma VerdictTells(cfg: Config, p: Plan, w: World, kept: string)
    requires !Pending(p.goal)
    ensures Tells(cfg, p, w, OnVerdict(cfg, p, w, kept))
  {
    hide Tale;
    var n := p.b.goals;
    NoTale();
    if Judges(cfg, p.goal) {
      match w.verdict {
        case IsAchieved => TwoActs(Wrote(GoalMark(Achieved, n)), GoalAchieved);
        case IsImpossible => TwoActs(Wrote(GoalMark(Impossible, n)), GoalImpossible);
        case NotYet(_) =>
          TwoActs(Wrote(GoalMark(Progress, n + 1)), GoalProgressed(n + 1));
          assert Pursuit(n, n + 1) == [] + [Wrote(GoalMark(Progress, n + 1)), GoalProgressed(n + 1)];
      }
    }
  }

  lemma StopTells(cfg: Config, p: Plan, w: World, kept: string)
    requires !Pending(p.goal)
    ensures Tells(cfg, p, w, OnStop(cfg, p, w, kept))
  {
    hide Tells, OnVerdict;
    VerdictTells(cfg, p, w, kept);
    TellsAfter(cfg, p, w, OnVerdict(cfg, p, w, kept), [Wrote(HookMark)]);
    if cfg.hasHooks && p.b.hooks < 3 && w.hook.InjectFollowup? && w.hook.reminder != "" {
      TellsNothing(cfg, p, w, OnStop(cfg, p, w, kept));
    }
  }

  lemma TellsLike(cfg: Config, p: Plan, q: Plan, w: World, m: Move)
    requires Tells(cfg, q, w, m) && p.goal == q.goal && p.b.goals == q.b.goals
    ensures Tells(cfg, p, w, m)
  {
  }

  lemma AnswerTells(cfg: Config, p: Plan, w: World, text: string, leaked: bool, cleaned: string)
    requires !Pending(p.goal)
    ensures Tells(cfg, p, w, OnAnswer(cfg, p, w, text, leaked, cleaned))
  {
    hide Tells, OnStop, Voices;
    if leaked && p.b.leaks < 2 {
      TellsNothing(cfg, p, w, OnAnswer(cfg, p, w, text, leaked, cleaned));
    } else {
      var kept, typed := (if leaked then cleaned else text), p.waiting + w.typedWhileClosing;
      var q := p.(entries := p.entries + [Assistant(kept, [])] + Voices(typed), waiting := w.late);
      if typed != [] {
        TellsNothing(cfg, p, w, OnAnswer(cfg, p, w, text, leaked, cleaned));
      } else {
        StopTells(cfg, q, w, kept);
        TellsLike(cfg, p, q, w, OnStop(cfg, q, w, kept));
        TellsAfter(cfg, p, w, OnStop(cfg, q, w, kept), [TextDone(text), TurnFinished(EndTurn)]);
      }
    }
  }

  lemma BatchTells(cfg: Config, p: Plan, w: World, text: string, calls: seq<CallId>)
    requires !Pending(p.goal)
    ensures Tells(cfg, p, w, OnBatch(cfg, p, w, text, calls))
  {
    hide Tells, Voices;
    TellsNothing(cfg, p, w, OnBatch(cfg, p, w, text, calls));
  }

  lemma ReplyTells(cfg: Config, p: Plan, w: World, reply: Reply)
    requires !Pending(p.goal)
    ensures Tells(cfg, p, w, OnReply(cfg, p, w, reply))
  {
    hide Tells, OnAnswer, OnBatch;
    match reply {
      case Failed(e) =>
        TellsNothing(cfg, p, w, OnReply(cfg, p, w, reply));
      case Done(text, leaked, cleaned, usage, _) =>
        AnswerTells(cfg, p, w, text, leaked, cleaned);
        TellsAfter(cfg, p, w, OnAnswer(cfg, p, w, text, leaked, cleaned), [Used(usage)]);
      case Calls(text, calls, usage) =>
        BatchTells(cfg, p, w, text, calls);
        TellsAfter(cfg, p, w, OnBatch(cfg, p, w, text, calls), [Used(usage)]);
    }
  }

  lemma MoveTells(cfg: Config, p: Plan, w: World)
    requires !Pending(p.goal) && w.goalEdit.KeepGoal?
    ensures Tells(cfg, p, w, MoveOf(cfg, p, w))
  {
    hide Tells, OnReply, Voices, Settle;
    assert Announced(p.goal) == p.goal && SetNotice(p.goal) == [];
    if p.cancelled || w.cancelBefore || w.compaction.CompactionCancelled? {
      TellsNothing(cfg, p, w, MoveOf(cfg, p, w));
    } else {
      var answer := Settle(w.attempts, 0);
      var top := p.(entries := p.entries + Voices(p.waiting + w.typedBefore), waiting := [], cancelled := false,
                    goal := Announced(p.goal));
      var asked := top.(entries := Context(top.entries, w.compaction), waiting := w.typedDuringModel,
                        cancelled := answer.cancelled, goal := Edited(top.goal, w.goalEdit));
      ReplyTells(cfg, asked, w, answer.reply);
      TellsLike(cfg, p, asked, w, OnReply(cfg, asked, w, answer.reply));
      TellsAfter(cfg, p, w, OnReply(cfg, asked, w, answer.reply),
                 SetNotice(p.goal) + ContextNotice(w.compaction) + Requests(asked.entries, answer.calls));
    }
  }

  lemma TaleGrows(s: State, s1: State, says: seq<Act>)
    requires Digest(s1.trace) == Digest(s.trace) + says
    ensures Tale(s1.trace) == Tale(s.trace) + Tale(says)
  {
    hide Accounts.Picked, Digest;
    Accounts.PickedNoted(s.trace, GoalAct);
    Accounts.PickedNoted(s1.trace, GoalAct);
    Accounts.PickedConcat(Digest(s.trace), says, GoalAct);
  }

  // ------------------------------------------------------------- runs

  predicate EndsWell(r: Run) {
    r.Ended? && r.outcome.Success?
  }

  /** The tale from `before` on, with `n` of them told already: progress, and the last word if there is one. */
  predicate Tailed(cfg: Config, before: seq<Act>, n: nat, goal: Option<Goal>, r: Run, script: seq<World>, trips: nat) {
    var concluded := EndsWell(r) && Judges(cfg, goal);
    && n <= r.s.b.goals && trips <= |script|
    && (concluded ==> trips > 0 && !script[trips - 1].verdict.NotYet?)
    && Tale(r.s.trace) == before + Pursuit(n, r.s.b.goals)
                          + (if concluded then LastWord(script[trips - 1].verdict, r.s.b.goals) else [])
    && (!concluded ==> (r.s.goal.Some? <==> goal.Some?)) && !Pending(r.s.goal)
  }

  lemma EpilogueTells(s: State, outcome: Outcome, w: World)
    ensures Tale(Epilogue(s, outcome, w).trace) == Tale(s.trace)
    ensures Epilogue(s, outcome, w).b == s.b && Epilogue(s, outcome, w).goal == s.goal
  {
    hide Accounts.Picked, Epilogue, Digest;
    EpiloguePlanned(s, outcome, w);
    TaleGrows(s, Epilogue(s, outcome, w), Farewell(Out(outcome)));
    Accounts.NothingPicked(Farewell(Out(outcome)), GoalAct);
    assert Tale(s.trace) + [] == Tale(s.trace);
  }

  lemma {:induction false} PursuitFront(i: nat, j: nat)
    requires i < j
    ensures Pursuit(i, j) == Pursuit(i, i + 1) + Pursuit(i + 1, j)
    decreases j
  {
    if j == i + 1 {
      assert Pursuit(i, j) + [] == Pursuit(i, j);
    } else {
      PursuitFront(i, j - 1);
    }
  }

  lemma PassTells(cfg: Config, s: State, w: World)
    requires s.inbox.accepting && !Pending(s.goal) && w.goalEdit.KeepGoal?
    ensures var r, n := Pass(cfg, s, w), s.b.goals;
            var concludes := r.Leave? && r.outcome.Success? && Judges(cfg, s.goal);
            && (r.Again? ==> r.s.inbox.accepting)
            && Tale(r.s.trace) == Tale(s.trace) + (if r.Again? && r.why == ForGoal then Pursuit(n, n + 1)
                                                   else if concludes then LastWord(w.verdict, n) else [])
            && (concludes ==> !w.verdict.NotYet?)
            && (!concludes ==> (r.s.goal.Some? <==> s.goal.Some?)) && !Pending(r.s.goal)
            && r.s.b.goals == n + (if r.Again? && r.why == ForGoal then 1 else 0)
  {
    hide Accounts.Picked, Pass, MoveOf, Digest;
    PassPlanned(cfg, s, w);
    MoveTells(cfg, PlanOf(s), w);
    TaleGrows(s, Pass(cfg, s, w).s, MoveOf(cfg, PlanOf(s), w).says);
  }

  lemma FurtherTold(
    cfg: Config, s: State, s1: State, r: Run, script: seq<World>, trips: nat, more: bool)
    requires script != [] && s1.b.goals == s.b.goals + (if more then 1 else 0) && (s1.goal.Some? <==> s.goal.Some?)
    requires Tale(s1.trace) == Tale(s.trace) + if more then Pursuit(s.b.goals, s1.b.goals) else []
    requires Tailed(cfg, Tale(s1.trace), s1.b.goals, s1.goal, r, script[1..], trips)
    ensures Tailed(cfg, Tale(s.trace), s.b.goals, s.goal, r, script, trips + 1)
  {
    hide Accounts.Picked, LastWord;
    if more {
      PursuitFront(s.b.goals, r.s.b.goals);
    }
    assert trips > 0 ==> script[1..][trips - 1] == script[trips];
    var last := if EndsWell(r) && Judges(cfg, s.goal) then LastWord(script[trips].verdict, r.s.b.goals) else [];
    assert Tale(s.trace) + [] == Tale(s.trace);
    assert more ==> Tale(s.trace) + Pursuit(s.b.goals, s1.b.goals) + Pursuit(s1.b.goals, r.s.b.goals)
                    == Tale(s.trace) + Pursuit(s.b.goals, r.s.b.goals);
  }

  /** A run over after its first trip, or before it. */
  lemma ToldAtOnce(cfg: Config, told: seq<Act>, n: nat, goal: Option<Goal>, r: Run, script: seq<World>, trips: nat)
    requires r.s.b.goals == n && trips <= 1 && trips <= |script| && !Pending(r.s.goal)
    requires var concluded := EndsWell(r) && Judges(cfg, goal);
             && (concluded ==> trips == 1 && !script[0].verdict.NotYet?)
             && Tale(r.s.trace) == told + (if concluded then LastWord(script[0].verdict, n) else [])
             && (!concluded ==> (r.s.goal.Some? <==> goal.Some?))
    ensures Tailed(cfg, told, n, goal, r, script, trips)
  {
    hide Tale, LastWord;
    assert Pursuit(n, n) == [] && told + [] == told;
  }

  lemma {:induction false} RunTells(cfg: Config, s: State, script: seq<World>)
    requires s.inbox.accepting && !Pending(s.goal) && OwnGoals(script)
    ensures Tailed(cfg, Tale(s.trace), s.b.goals, s.goal, RunOver(cfg, s, script), script, Trips(cfg, s, script))
    decreases |script|
  {
    hide Tale, Tailed, Pursuit, Pass, Epilogue, LastWord;
    var told, n := Tale(s.trace), s.b.goals;
    assert told + [] == told;
    if script == [] {
      ToldAtOnce(cfg, told, n, s.goal, Going(s), script, 0);
    } else {
      PassTells(cfg, s, script[0]);
      match Pass(cfg, s, script[0]) {
        case Again(s1, why) =>
          RunTells(cfg, s1, script[1..]);
          FurtherTold(cfg, s, s1, RunOver(cfg, s1, script[1..]), script, Trips(cfg, s1, script[1..]), why == ForGoal);
        case Leave(s1, outcome) =>
          EpilogueTells(s1, outcome, script[0]);
          ToldAtOnce(cfg, told, n, s.goal, RunOver(cfg, s, script), script, 1);
        case Drop(_) =>
          ToldAtOnce(cfg, told, n, s.goal, RunOver(cfg, s, script), script, 1);
      }
    }
  }

  predicate IsVerdictMark(a: Act) {
    a.Wrote? && a.line.GoalMark? && (a.line.kind == Achieved || a.line.kind == Impossible)
  }

  /** No verdict so far. */
  predicate Undecided(tale: seq<Act>) {
    forall a :: a in tale ==> !a.GoalAchieved? && !a.GoalImpossible? && !IsVerdictMark(a)
  }

  lemma {:induction false} PursuitUndecided(i: nat, j: nat)
    requires i <= j
    ensures forall a :: a in Pursuit(i, j) ==>
              a.GoalProgressed? || (a.Wrote? && a.line.GoalMark? && a.line.kind == Progress)
    decreases j
  {
    if i < j {
      PursuitUndecided(i, j - 1);
    }
  }

  lemma RiseTells(r: Run, leg: Leg)
    requires r.s.checkpoint == Some(r.s.c)
    ensures var s := LogicalRuns.Rise(r, leg);
            && Tale(s.trace) == Tale(r.s.trace) + [RunResumed] && s.b.goals == 0 && s.goal == r.s.goal
            && s.inbox.accepting
  {
    hide Accounts.Picked, Digest, LogicalRuns.Rise;
    RisePlanned(r, leg);
    TaleGrows(r.s, LogicalRuns.Rise(r, leg), [RunResumed]);
    Accounts.PickedOne(RunResumed, GoalAct);
  }

  predicate IsSetMark(a: Act) { a.Wrote? && a.line.GoalMark? && a.line.kind == GoalSet }

  lemma {:induction false} CountConcat(a: Trace, b: Trace, p: Act -> bool)
    ensures RunEvents.Count(a + b, p) == RunEvents.Count(a, p) + RunEvents.Count(b, p)
    decreases |b|
  {
    if b == [] {
      assert a + b == a;
    } else {
      assert (a + b)[..|a + b| - 1] == a + b[..|b| - 1];
      CountConcat(a, b[..|b| - 1], p);
    }
  }

  /** Of the whole run: what its last segment tells, after a beginning with no verdict in it. */
  lemma {:induction false} LogicalRunTells(cfg: Config, s: State, script: seq<World>, legs: seq<Leg>)
    requires s.inbox.accepting && !Pending(s.goal) && s.b.goals == 0 && LogicalRuns.AllOwn(script, legs)
    requires Undecided(Tale(s.trace))
    ensures var (start, last) := LogicalRuns.LastSegment(cfg, s, script, legs);
            && Undecided(Tale(start.trace))
            && RunEvents.Count(Tale(start.trace), IsSetMark) == RunEvents.Count(Tale(s.trace), IsSetMark)
            && Tailed(cfg, Tale(start.trace), 0, s.goal, LogicalRun(cfg, s, script, legs), last,
                      Trips(cfg, start, last))
    decreases |legs|
  {
    hide Tale, RunEvents.Count, RunOver, LogicalRuns.Rise, Trips, LastWord;
    LogicalRuns.LogicalRunStep(cfg, s, script, legs);
    RunTells(cfg, s, script);
    var r := RunOver(cfg, s, script);
    if LogicalRuns.WakesUp(r, legs) {
      LogicalRuns.SleepsWithCheckpoint(cfg, s, script);
      RiseTells(r, legs[0]);
      var s1 := LogicalRuns.Rise(r, legs[0]);
      var more := Pursuit(0, r.s.b.goals) + [RunResumed];
      PursuitUndecided(0, r.s.b.goals);
      assert Tale(s1.trace) == Tale(s.trace) + more;
      CountConcat(Tale(s.trace), more, IsSetMark);
      CountNone(more, IsSetMark);
      LogicalRunTells(cfg, s1, legs[0].script, legs[1..]);
      SameGoal(cfg, Tale(LogicalRuns.LastSegment(cfg, s, script, legs).0.trace), s1.goal, s.goal,
               LogicalRun(cfg, s, script, legs), LogicalRuns.LastSegment(cfg, s, script, legs).1,
               Trips(cfg, LogicalRuns.LastSegment(cfg, s, script, legs).0,
                     LogicalRuns.LastSegment(cfg, s, script, legs).1));
    }
  }

  lemma SameGoal(
    cfg: Config, before: seq<Act>, g: Option<Goal>, h: Option<Goal>, r: Run, script: seq<World>, trips: nat)
    requires Tailed(cfg, before, 0, g, r, script, trips) && (g.Some? <==> h.Some?)
    ensures Tailed(cfg, before, 0, h, r, script, trips)
  {
  }

  // ------------------------------------------------------------- markers

  lemma {:induction false} MarksOfTale(t: Trace)
    ensures MarksOf(Tale(t)) == MarksOf(t)
  {
    if t != [] {
      var front, a := t[..|t| - 1], t[|t| - 1];
      MarksOfTale(front);
      if GoalAct(a).Some? {
        assert (Tale(front) + [a])[..|Tale(front)|] == Tale(front);
      } else {
        assert Tale(front) + [] == Tale(front);
      }
    }
  }

  lemma {:induction false} CountTale(t: Trace, p: Act -> bool)
    requires forall a :: p(a) ==> GoalAct(a).Some?
    ensures RunEvents.Count(Tale(t), p) == RunEvents.Count(t, p)
  {
    if t != [] {
      var front, a := t[..|t| - 1], t[|t| - 1];
      CountTale(front, p);
      if GoalAct(a).Some? {
        assert (Tale(front) + [a])[..|Tale(front)|] == Tale(front);
      } else {
        assert Tale(front) + [] == Tale(front);
      }
    }
  }

  lemma {:induction false} CountNone(t: Trace, p: Act -> bool)
    requires forall a :: a in t ==> !p(a)
    ensures RunEvents.Count(t, p) == 0
  {
    if t != [] {
      CountNone(t[..|t| - 1], p);
    }
  }

  predicate IsAchievement(a: Act) { a.GoalAchieved? }
  predicate IsSurrender(a: Act) { a.GoalImpossible? }

  lemma LastWordCounts(before: seq<Act>, mark: Act, event: Act)
    requires mark.Wrote? && mark.line.GoalMark? && Undecided(before) && (event.GoalAchieved? || event.GoalImpossible?)
    ensures var t := before + [mark, event];
            && RunEvents.Count(t, IsAchievement) == (if event.GoalAchieved? then 1 else 0)
            && RunEvents.Count(t, IsSurrender) == (if event.GoalImpossible? then 1 else 0)
            && MarksOf(t) == MarksOf(before) + [(mark.line.kind, mark.line.iteration)]
  {
    var t := before + [mark, event];
    assert t[..|t| - 1] == before + [mark] && (before + [mark])[..|before|] == before;
    CountNone(before, IsAchievement);
    CountNone(before, IsSurrender);
  }

  // ------------------------------------------------------------- theorem

  /** What a run has to tell of its goal, with `n` trips in its last segment. */
  predicate VerdictTold(cfg: Config, goal: Option<Goal>, r: Run, last: seq<World>, n: nat) {
    var t, concluded := r.s.trace, EndsWell(r) && Judges(cfg, goal);
    && (concluded ==> 0 < n <= |last| && !last[n - 1].verdict.NotYet?)
    && RunEvents.Count(t, IsAchievement) == (if concluded && last[n - 1].verdict.IsAchieved? then 1 else 0)
    && RunEvents.Count(t, IsSurrender) == (if concluded && last[n - 1].verdict.IsImpossible? then 1 else 0)
    && (concluded ==>
          && MarksOf(t) != []
          && var kind := MarksOf(t)[|MarksOf(t)| - 1].0;
             && (kind == Achieved <==> last[n - 1].verdict.IsAchieved?)
             && (kind == Impossible <==> last[n - 1].verdict.IsImpossible?))
  }

  lemma {:induction false} MarksUndecided(t: Trace)
    requires Undecided(t)
    ensures forall i :: 0 <= i < |MarksOf(t)| ==> MarksOf(t)[i].0 == GoalSet || MarksOf(t)[i].0 == Progress
  {
    if t != [] {
      MarksUndecided(t[..|t| - 1]);
      assert t[|t| - 1] in t;
    }
  }

  lemma {:induction false} BodyUndecided(isSet: bool, n: nat)
    ensures forall i :: 0 <= i < |Body(isSet, n)| ==> Body(isSet, n)[i].0 == GoalSet || Body(isSet, n)[i].0 == Progress
  {
    if n == 0 {
      BodyGrows(isSet, 0);
    } else {
      BodyUndecided(isSet, n - 1);
      BodyGrows(isSet, n - 1);
    }
  }

  lemma TailedTells(cfg: Config, before: seq<Act>, goal: Option<Goal>, r: Run, last: seq<World>, n: nat)
    requires Tailed(cfg, before, 0, goal, r, last, n) && Undecided(before)
    ensures VerdictTold(cfg, goal, r, last, n)
  {
    hide Accounts.Picked, MarksOf, RunEvents.Count, Tale;
    var t, so_far := r.s.trace, before + Pursuit(0, r.s.b.goals);
    MarksOfTale(t);
    CountTale(t, IsAchievement);
    CountTale(t, IsSurrender);
    PursuitUndecided(0, r.s.b.goals);
    if EndsWell(r) && Judges(cfg, goal) {
      if last[n - 1].verdict.IsAchieved? {
        LastWordCounts(so_far, Wrote(GoalMark(Achieved, r.s.b.goals)), GoalAchieved);
      } else {
        LastWordCounts(so_far, Wrote(GoalMark(Impossible, r.s.b.goals)), GoalImpossible);
      }
    } else {
      assert so_far + [] == so_far;
      CountNone(so_far, IsAchievement);
      CountNone(so_far, IsSurrender);
    }
  }

  /** The markers have a verdict exactly when the run is concluded. */
  lemma OverWhen(
    cfg: Config, before: seq<Act>, goal: Option<Goal>, r: Run, last: seq<World>, n: nat, isSet: bool, progress: nat,
    over: bool)
    requires Tailed(cfg, before, 0, goal, r, last, n) && Undecided(before)
    requires Sentence(MarksOf(r.s.trace), isSet, progress, over)
    ensures over <==> EndsWell(r) && Judges(cfg, goal)
  {
    hide Accounts.Picked, MarksOf, Tale, Body;
    TailedTells(cfg, before, goal, r, last, n);
    BodyUndecided(isSet, progress);
    var marks, so_far := MarksOf(r.s.trace), before + Pursuit(0, r.s.b.goals);
    if EndsWell(r) && Judges(cfg, goal) {
      assert marks[|marks| - 1].0 == Achieved || marks[|marks| - 1].0 == Impossible;
    } else {
      assert so_far + [] == so_far;
      PursuitUndecided(0, r.s.b.goals);
      MarksUndecided(so_far);
      MarksOfTale(r.s.trace);
      OverEnds(marks, isSet, progress, over);
    }
  }

  lemma OverEnds(marks: seq<(MarkKind, nat)>, isSet: bool, progress: nat, over: bool)
    requires Sentence(marks, isSet, progress, over)
    ensures over ==> marks != [] && (marks[|marks| - 1].0 == Achieved || marks[|marks| - 1].0 == Impossible)
  {
    hide Body;
  }

  lemma FreshTells(entries: seq<Entry>, waiting: seq<Said>, goal: Option<Goal>, left: Option<ContinueKind>)
    ensures var s := Fresh(entries, waiting, goal, left);
            && s.inbox.accepting && !Pending(s.goal) && s.b.goals == 0 && (s.goal.Some? <==> goal.Some?)
            && Undecided(Tale(s.trace))
            && RunEvents.Count(Tale(s.trace), IsSetMark) == (if Pending(goal) then 1 else 0)
  {
    hide Accounts.Picked, Digest, Fresh, GoalAct, RunEvents.Count;
    var s := Fresh(entries, waiting, goal, left);
    FreshPlanned(entries, waiting, goal, left);
    OpeningTale(goal);
    Accounts.PickedNoted(s.trace, GoalAct) by { GoalActNoted(); }
    CountConcat([RunStarted], SetNotice(goal), IsSetMark);
    CountOne(RunStarted, IsSetMark);
    CountOne(Wrote(GoalMark(GoalSet, 0)), IsSetMark);
    CountNone([], IsSetMark);
  }

  lemma GoalActNoted()
    ensures forall a :: GoalAct(a).Some? ==> Noted(a)
  {
  }

  lemma CountOne(a: Act, p: Act -> bool)
    ensures RunEvents.Count([a], p) == if p(a) then 1 else 0
  {
    assert [a][..0] == [];
  }

  lemma OpeningTale(goal: Option<Goal>)
    ensures Tale([RunStarted] + SetNotice(goal)) == [RunStarted] + SetNotice(goal)
  {
    hide Accounts.Picked;
    Accounts.PickedOne(RunStarted, GoalAct);
    assert [RunStarted] + [] == [RunStarted];
    if Pending(goal) {
      TwoActs(RunStarted, Wrote(GoalMark(GoalSet, 0)));
      assert [RunStarted] + [Wrote(GoalMark(GoalSet, 0))] == [RunStarted, Wrote(GoalMark(GoalSet, 0))];
    }
  }

  lemma SetMarks(cfg: Config, before: seq<Act>, goal: Option<Goal>, r: Run, last: seq<World>, n: nat)
    requires Tailed(cfg, before, 0, goal, r, last, n)
    ensures RunEvents.Count(r.s.trace, IsSetMark) == RunEvents.Count(before, IsSetMark)
  {
    hide Accounts.Picked, Tale, RunEvents.Count;
    CountTale(r.s.trace, IsSetMark);
    var progress := Pursuit(0, r.s.b.goals);
    PursuitUndecided(0, r.s.b.goals);
    var word := if EndsWell(r) && Judges(cfg, goal) then LastWord(last[n - 1].verdict, r.s.b.goals) else [];
    CountConcat(before, progress + word, IsSetMark);
    CountNone(progress + word, IsSetMark);
    assert before + progress + word == before + (progress + word);
  }

  /**
   While nobody else changes the goal, over any number of suspensions: a run that has a goal and a judge ends well
   exactly with a verdict, and the verdict it writes and announces, once, is the one the judge gave in its last trip.
   The set marker is written once if it was owed at the start, and otherwise never.
   */
  lemma VerdictIsTold(
    cfg: Config, entries: seq<Entry>, waiting: seq<Said>, goal: Option<Goal>, left: Option<ContinueKind>,
    script: seq<World>, legs: seq<Leg>)
    requires LogicalRuns.AllOwn(script, legs)
    ensures var s := Fresh(entries, waiting, goal, left);
            var r := LogicalRun(cfg, s, script, legs);
            var (start, last) := LogicalRuns.LastSegment(cfg, s, script, legs);
            && (Journal.StoryOf(r.s.trace).over <==> EndsWell(r) && Judges(cfg, goal))
            && VerdictTold(cfg, goal, r, last, Trips(cfg, start, last))
            && RunEvents.Count(r.s.trace, IsSetMark) == (if Pending(goal) then 1 else 0)
  {
    hide LogicalRun, Fresh, Trips, Tailed, VerdictTold, Tale, Undecided, Sentence, MarksOf, Journal.StoryOf,
      RunEvents.Count, LogicalRuns.LastSegment, LogicalRuns.AllOwn;
    var s := Fresh(entries, waiting, goal, left);
    FreshTells(entries, waiting, goal, left);
    LogicalRunTells(cfg, s, script, legs);
    var r := LogicalRun(cfg, s, script, legs);
    var (start, last) := LogicalRuns.LastSegment(cfg, s, script, legs);
    var n := Trips(cfg, start, last);
    SameGoal(cfg, Tale(start.trace), s.goal, goal, r, last, n);
    TailedTells(cfg, Tale(start.trace), goal, r, last, n);
    SetMarks(cfg, Tale(start.trace), goal, r, last, n);
    LogicalRuns.GoalProtocolOverSuspensions(cfg, entries, waiting, goal, left, script, legs);
    var j := Journal.StoryOf(r.s.trace);
    assert r.s.trace[..|r.s.trace|] == r.s.trace;
    OverWhen(cfg, Tale(start.trace), goal, r, last, n, j.sets == 1, j.progress, j.over);
  }
}
