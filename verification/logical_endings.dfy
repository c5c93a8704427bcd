/** How a logical run ends: the offer to continue, and what its session log keeps, through any number of suspensions. */
module LogicalEndings {
  import opened Transcript
  import opened Options
  import opened Retry
  import opened AgentLoop
  import opened SessionLog
  import opened LogEndings
  import opened QuietRun
  import opened LogicalRuns
  import PendingContinue
  import RunPromises

  // ------------------------------------------------------------- the offer to continue

  /** Only the last segment decides what offer stands, and every sleep leaves the one that was there. */
  lemma {:induction false} OfferOverSuspensions(cfg: Config, s: State, script: seq<World>, legs: seq<Leg>)
    ensures var (start, last) := LastSegment(cfg, s, script, legs);
            && start.continueEntry == s.continueEntry
            && PendingContinue.Offered(s.continueEntry, LogicalRun(cfg, s, script, legs), last,
                                       RunPromises.Trips(cfg, start, last))
    decreases |legs|
  {
    hide RunOver, PendingContinue.Offered, RunPromises.Trips, Rise;
    LogicalRunStep(cfg, s, script, legs);
    PendingContinue.OfferAtTheEnd(cfg, s, script);
    var r := RunOver(cfg, s, script);
    if WakesUp(r, legs) {
      SleepKeepsOffer(s.continueEntry, r, script, RunPromises.Trips(cfg, s, script), legs[0]);
      OfferOverSuspensions(cfg, Rise(r, legs[0]), legs[0].script, legs[1..]);
    }
  }

  lemma SleepKeepsOffer(left: Option<ContinueKind>, r: Run, script: seq<World>, n: nat, leg: Leg)
    requires r.Ended? && r.outcome == Failure(Suspended) && PendingContinue.Offered(left, r, script, n)
    ensures Rise(r, leg).continueEntry == left
  {
  }

  // ------------------------------------------------------------- user messages

  predicate AllKeepContext(script: seq<World>, legs: seq<Leg>) {
    && (forall i :: 0 <= i < |script| ==> KeepsContext(script[i]))
    && (forall k, i :: 0 <= k < |legs| && 0 <= i < |legs[k].script| ==> KeepsContext(legs[k].script[i]))
  }

  /** Each wake-up brings back the user messages of the log. */
  predicate UsersRebuilt(base: Reading, cfg: Config, s: State, script: seq<World>, legs: seq<Leg>)
    decreases |legs|
  {
    var r := RunOver(cfg, s, script);
    WakesUp(r, legs) ==>
      && UsersIn(Spoken(legs[0].entries)) == UsersIn(Logged(base, r.s.trace))
      && UsersRebuilt(base, cfg, Rise(r, legs[0]), legs[0].script, legs[1..])
  }

  lemma RiseSame(base: Reading, r: Run, leg: Leg)
    requires r.s.checkpoint.Some? && UsersIn(Spoken(leg.entries)) == UsersIn(Logged(base, r.s.trace))
    ensures SameUsers(base, Rise(r, leg))
  {
    hide Spoken, Logged, UsersIn;
    SessionLog.Law();
  }

  lemma {:induction false} LogicalRunSame(base: Reading, cfg: Config, s: State, script: seq<World>, legs: seq<Leg>)
    requires SameUsers(base, s) && AllKeepContext(script, legs) && UsersRebuilt(base, cfg, s, script, legs)
    ensures SameUsers(base, LogicalRun(cfg, s, script, legs).s)
    decreases |legs|
  {
    hide RunOver, Rise, SameUsers, KeepsContext, UsersIn, Logged, Spoken;
    LogicalRunStep(cfg, s, script, legs);
    RunSame(base, cfg, s, script);
    var r := RunOver(cfg, s, script);
    if WakesUp(r, legs) {
      SleepsWithCheckpoint(cfg, s, script);
      RiseSame(base, r, legs[0]);
      LogicalRunSame(base, cfg, Rise(r, legs[0]), legs[0].script, legs[1..]);
    }
  }

  /** However a logical run ends, and while it sleeps or goes on, its log has all its conversation's user messages. */
  lemma UsersLoggedOverSuspensions(
    cfg: Config, entries: seq<Entry>, waiting: seq<Said>, goal: Option<Goal>, left: Option<ContinueKind>,
    script: seq<World>, legs: seq<Leg>)
    requires AllKeepContext(script, legs)
    requires UsersRebuilt(Spoken(entries), cfg, Fresh(entries, waiting, goal, left), script, legs)
    ensures var r := LogicalRun(cfg, Fresh(entries, waiting, goal, left), script, legs);
            UsersIn(Logged(Spoken(entries), r.s.trace)) == UsersIn(Spoken(r.s.entries))
  {
    hide RunOver, LogicalRun, UsersRebuilt, AllKeepContext, Spoken, Logged, UsersIn;
    FreshSame(entries, waiting, goal, left);
    LogicalRunSame(Spoken(entries), cfg, Fresh(entries, waiting, goal, left), script, legs);
  }

  // ------------------------------------------------------------- output before the last user message

  lemma {:induction false} LogicalRunLeaving(base: Reading, cfg: Config, s: State, script: seq<World>, legs: seq<Leg>)
    requires Level(base, s, true) && Rebuilt(base, cfg, s, script, legs) && InStepSinceWake(cfg, s, script, legs)
    requires AllCalm(script) && forall i :: 0 <= i < |legs| ==> AllCalm(legs[i].script)
    ensures var r := LogicalRun(cfg, s, script, legs); r.Ended? && !r.s.cancelled ==> SameClosed(base, r.s)
    decreases |legs|
  {
    hide RunOver, Rise, Level, AllCalm, AllInStep, SameClosed, Spoken, Logged;
    LogicalRunStep(cfg, s, script, legs);
    var r := RunOver(cfg, s, script);
    if WakesUp(r, legs) {
      SleepsWithCheckpoint(cfg, s, script);
      RiseLevel(base, r, legs[0]);
      LogicalRunLeaving(base, cfg, Rise(r, legs[0]), legs[0].script, legs[1..]);
    } else {
      RunLeaving(base, cfg, s, script);
    }
  }

  /** Over suspensions, failures included: when the trips since the last wake-up log in order, so does the log. */
  lemma LogKeptOverSuspensions(
    cfg: Config, entries: seq<Entry>, waiting: seq<Said>, goal: Option<Goal>, left: Option<ContinueKind>,
    script: seq<World>, legs: seq<Leg>)
    requires AllCalm(script) && forall i :: 0 <= i < |legs| ==> AllCalm(legs[i].script)
    requires Rebuilt(Spoken(entries), cfg, Fresh(entries, waiting, goal, left), script, legs)
    requires InStepSinceWake(cfg, Fresh(entries, waiting, goal, left), script, legs)
    ensures var r := LogicalRun(cfg, Fresh(entries, waiting, goal, left), script, legs);
            r.Ended? && !r.s.cancelled ==>
              Logged(Spoken(entries), r.s.trace).closed == Spoken(r.s.entries).closed
  {
    hide LogicalRun, Rebuilt, InStepSinceWake, Level, AllCalm, Spoken, Logged;
    FreshLevel(entries, waiting, goal, left);
    LogicalRunLeaving(Spoken(entries), cfg, Fresh(entries, waiting, goal, left), script, legs);
  }

  // ------------------------------------------------------------- quiet runs

  predicate AllQuiet(script: seq<World>) {
    forall i :: 0 <= i < |script| ==> Quiet(script[i])
  }

  /** Nothing is waiting for the sleeper, and nothing happens afterwards. */
  predicate QuietLegs(legs: seq<Leg>) {
    forall i :: 0 <= i < |legs| ==> legs[i].waiting == [] && AllQuiet(legs[i].script)
  }

  lemma RiseUnwritten(r: Run, leg: Leg)
    requires r.s.checkpoint.Some? && r.s.goal.None? && leg.waiting == []
    ensures Unwritten(Rise(r, leg), Cards(r.s.trace))
  {
    hide Cards;
    QuietRun.Law();
  }

  /** `n` cards were there before, and every segment that ends adds one at most. */
  lemma {:induction false} LogicalRunWrites(cfg: Config, s: State, script: seq<World>, legs: seq<Leg>, n: nat)
    requires Unwritten(s, n) && !cfg.hasHooks && AllQuiet(script) && QuietLegs(legs)
    ensures var r, before := LogicalRun(cfg, s, script, legs), Cards(LastSegment(cfg, s, script, legs).0.trace);
            && n <= before <= n + WakeUps(cfg, s, script, legs)
            && (if r.Ended? then before <= Cards(r.s.trace) <= before + 1 else Cards(r.s.trace) == before)
            && (r.Ended? && r.outcome.Success? && r.outcome.text != "" ==> Cards(r.s.trace) == before + 1)
    decreases |legs|
  {
    hide RunOver, Rise, Cards, Quiet;
    LogicalRunStep(cfg, s, script, legs);
    RunWrites(cfg, s, script, n);
    var r := RunOver(cfg, s, script);
    if WakesUp(r, legs) {
      SleepsWithCheckpoint(cfg, s, script);
      RiseUnwritten(r, legs[0]);
      LogicalRunWrites(cfg, Rise(r, legs[0]), legs[0].script, legs[1..], Cards(r.s.trace));
    }
  }

  /** Without input, hook or goal each segment writes at most one card, at its end, and one for any answer. */
  lemma OneCardPerQuietSegment(
    cfg: Config, entries: seq<Entry>, left: Option<ContinueKind>, script: seq<World>, legs: seq<Leg>)
    requires !cfg.hasHooks && AllQuiet(script) && QuietLegs(legs)
    ensures var s := Fresh(entries, [], None, left);
            var r, before := LogicalRun(cfg, s, script, legs), Cards(LastSegment(cfg, s, script, legs).0.trace);
            && before <= WakeUps(cfg, s, script, legs)
            && before <= Cards(r.s.trace) <= before + (if r.Ended? then 1 else 0)
            && (r.Ended? && r.outcome.Success? && r.outcome.text != "" ==> Cards(r.s.trace) == before + 1)
  {
    hide LogicalRun, LastSegment, WakeUps, AllQuiet, QuietLegs;
    LogicalRunWrites(cfg, Fresh(entries, [], None, left), script, legs, 0);
  }
}
