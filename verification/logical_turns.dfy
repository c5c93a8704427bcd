/** A logical run ends: a bound on its turns over all its segments. */
module LogicalTurns {
  import opened Transcript
  import opened Options
  import opened Retry
  import opened AgentLoop
  import opened Journal
  import opened RunPromises
  import opened LogicalRuns
  import Ledgers
  import RunEvents

  /** Inputs that wait for the sleeper at its wake-ups or are typed afterwards. */
  function TypedLater(legs: seq<Leg>): nat {
    if legs == [] then 0 else |legs[0].waiting| + TypedIn(legs[0].script) + TypedLater(legs[1..])
  }

  function NotYetsLater(legs: seq<Leg>): nat {
    if legs == [] then 0 else NotYets(legs[0].script) + NotYetsLater(legs[1..])
  }

  /** Where a run starts or wakes up: its books are in order, its inbox is open and its budgets are within bounds. */
  predicate Awake(before: seq<Said>, s: State, max: nat) {
    && s.c.iteration <= max && Within(s.b) && Ledgers.AtTop(s) && Kept(before, false, s) && s.inbox.accepting
  }

  /** Waking gives the budgets back, whole. */
  lemma RiseAwake(before: seq<Said>, r: Run, leg: Leg, max: nat)
    requires r.Ended? && r.s.checkpoint == Some(r.s.c) && r.s.c.iteration <= max
    requires Journal.Ended(before, false, r.s, Failure(Suspended)) && Ledgers.Closed(r.s, Failure(Suspended))
    ensures var s := Rise(r, leg);
            && Awake(StoryOf(r.s.trace).drained, s, max) && Room(s) == 6 + |leg.waiting| && s.c == r.s.c
  {
    hide StoryOf, Ledgers.AtTop, Ledgers.Closed, Journal.Ended, Kept;
    RiseKeeps(before, false, r, leg);
    Ledgers.ResumedBooks(r.s, leg.entries, leg.waiting);
  }

  /** What pays for a logical run's trips once it has been woken so often and made so many tool iterations. */
  function Paid(s: State, script: seq<World>, legs: seq<Leg>, wakes: nat, iterations: int): int {
    Room(s) + TypedIn(script) + TypedLater(legs) + NotYets(script) + NotYetsLater(legs) + 6 * wakes + iterations
  }

  lemma {:induction false} LogicallyBounded(
    before: seq<Said>, cfg: Config, s: State, script: seq<World>, legs: seq<Leg>, max: nat)
    requires cfg.maxToolIterations == Some(max) && Awake(before, s, max)
    ensures var r := LogicalRun(cfg, s, script, legs);
            var paid := Paid(s, script, legs, WakeUps(cfg, s, script, legs), r.s.c.iteration - s.c.iteration);
            && s.c.iteration <= r.s.c.iteration <= max
            && r.s.c.modelStep <= s.c.modelStep + paid + 1
            && (r.Going? ==> |LastSegment(cfg, s, script, legs).1| <= paid)
    decreases |legs|
  {
    hide RunOver, Rise, StoryOf, Kept, Trips, TypedIn, NotYets, Ledgers.AtTop, Ledgers.Closed, Within, Room,
      Journal.Ended;
    LogicalRunStep(cfg, s, script, legs);
    Bounded(before, cfg, s, script, max);
    TurnsPerTrip(cfg, s, script);
    var r := RunOver(cfg, s, script);
    if WakesUp(r, legs) {
      SleepsWithCheckpoint(cfg, s, script);
      RunDelivers(before, false, cfg, s, script);
      Ledgers.RunBooks(cfg, s, script);
      RiseAwake(before, r, legs[0], max);
      LogicallyBounded(StoryOf(r.s.trace).drained, cfg, Rise(r, legs[0]), legs[0].script, legs[1..], max);
    }
  }

  /**
   A capped run that starts with unspent budgets and is woken L times makes at most 7 + 6 L + K + G + (max - i0)
   turns, where K inputs are waiting or typed and G verdicts say "not yet" over all its segments; if its last segment
   may go round that often, it is over.
   */
  lemma TerminatesOverSuspensions(
    before: seq<Said>, cfg: Config, s: State, script: seq<World>, legs: seq<Leg>, max: nat)
    requires cfg.maxToolIterations == Some(max) && s.c.iteration <= max && s.b == UNSPENT
    requires Ledgers.AtTop(s) && Kept(before, false, s) && s.inbox.accepting
    ensures var k := |s.inbox.pending| + TypedIn(script) + TypedLater(legs);
            var g := NotYets(script) + NotYetsLater(legs);
            var bound := 7 + 6 * WakeUps(cfg, s, script, legs) + k + g + (max - s.c.iteration);
            var r := LogicalRun(cfg, s, script, legs);
            && RunEvents.Count(r.s.trace, RunEvents.IsTurnStart)
               <= RunEvents.Count(s.trace, RunEvents.IsTurnStart) + bound
            && (|LastSegment(cfg, s, script, legs).1| >= bound ==> !r.Going?)
  {
    hide LogicalRun, LastSegment, WakeUps, RunEvents.Count, TypedIn, NotYets, TypedLater, NotYetsLater,
      Ledgers.LedgerOf, StoryOf;
    LogicallyBounded(before, cfg, s, script, legs, max);
    Ledgers.LogicalRunBooks(cfg, s, script, legs);
    RunEvents.TurnsRead(s.trace);
    RunEvents.TurnsRead(LogicalRun(cfg, s, script, legs).s.trace);
    assert |s.inbox.arrived| == |s.inbox.consumed| + |s.inbox.pending|;
  }
}
