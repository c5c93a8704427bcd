/** What is promised of one run, promised of a logical run through any number of suspensions. */
module LogicalRuns {
  import opened Transcript
  import opened Options
  import opened Retry
  import opened AgentLoop
  import opened Journal
  import opened RunPromises
  import Requests
  import Resume
  import SessionLog

  /** The run sleeps and there is a wake-up left. */
  predicate WakesUp(r: Run, legs: seq<Leg>) {
    legs != [] && r.Ended? && r.outcome == Failure(Suspended)
  }

  function Rise(r: Run, leg: Leg): State {
    Resumed(r.s, leg.entries, leg.waiting)
  }

  lemma LogicalRunStep(cfg: Config, s: State, script: seq<World>, legs: seq<Leg>)
    ensures var r := RunOver(cfg, s, script);
            LogicalRun(cfg, s, script, legs) ==
            if WakesUp(r, legs) then LogicalRun(cfg, Rise(r, legs[0]), legs[0].script, legs[1..]) else r
  {
    hide RunOver, Resumed;
  }

  /** The segment a logical run ends in: the state it starts from and its script. */
  function LastSegment(cfg: Config, s: State, script: seq<World>, legs: seq<Leg>): (State, seq<World>)
    decreases |legs|
  {
    var r := RunOver(cfg, s, script);
    if WakesUp(r, legs) then LastSegment(cfg, Rise(r, legs[0]), legs[0].script, legs[1..]) else (s, script)
  }

  /** How often it is woken. */
  function WakeUps(cfg: Config, s: State, script: seq<World>, legs: seq<Leg>): (n: nat)
    ensures n <= |legs|
    decreases |legs|
  {
    var r := RunOver(cfg, s, script);
    if WakesUp(r, legs) then 1 + WakeUps(cfg, Rise(r, legs[0]), legs[0].script, legs[1..]) else 0
  }

  /** A run that sleeps has left a checkpoint to wake from. */
  lemma {:induction false} SleepsWithCheckpoint(cfg: Config, s: State, script: seq<World>)
    ensures var r := RunOver(cfg, s, script);
            r.Ended? && r.outcome == Failure(Suspended) ==> r.s.checkpoint == Some(r.s.c)
    decreases |script|
  {
    hide Pass, Epilogue;
    if script != [] {
      Resume.AsleepCounters(cfg, s, script[0]);
      match Pass(cfg, s, script[0]) {
        case Again(s1, _) => SleepsWithCheckpoint(cfg, s1, script[1..]);
        case Leave(s1, outcome) => Resume.EpilogueCounters(s1, outcome, script[0]);
        case Drop(_) =>
      }
    }
  }

  // ------------------------------------------------------------- abandoned runs

  predicate CutShort(cfg: Config, s: State, script: seq<World>, legs: seq<Leg>)
    decreases |legs|
  {
    var r := RunOver(cfg, s, script);
    if WakesUp(r, legs) then CutShort(cfg, Rise(r, legs[0]), legs[0].script, legs[1..])
    else CompactionCutShort(cfg, s, script)
  }

  /** A logical run is abandoned exactly when a compaction of its last segment is cancelled. */
  lemma {:induction false} LogicallyAbandonedWhen(cfg: Config, s: State, script: seq<World>, legs: seq<Leg>)
    ensures LogicalRun(cfg, s, script, legs).Abandoned? <==> CutShort(cfg, s, script, legs)
    decreases |legs|
  {
    hide RunOver, Rise, CompactionCutShort;
    LogicalRunStep(cfg, s, script, legs);
    AbandonedWhen(cfg, s, script);
    var r := RunOver(cfg, s, script);
    if WakesUp(r, legs) {
      LogicallyAbandonedWhen(cfg, Rise(r, legs[0]), legs[0].script, legs[1..]);
    }
  }

  // ------------------------------------------------------------- user input

  /** The inboxes the segments end with, in order. */
  function Inboxes(cfg: Config, s: State, script: seq<World>, legs: seq<Leg>): (boxes: seq<Inbox>)
    ensures boxes != []
    decreases |legs|
  {
    var r := RunOver(cfg, s, script);
    [r.s.inbox] +
    if WakesUp(r, legs) then Inboxes(cfg, Rise(r, legs[0]), legs[0].script, legs[1..]) else []
  }

  function ConsumedIn(boxes: seq<Inbox>): seq<Said> {
    if boxes == [] then [] else boxes[0].consumed + ConsumedIn(boxes[1..])
  }

  /**
   What each segment leaves in its inbox: what was typed while it fell asleep, and, if the last one succeeds, what was
   pushed after its last drain.
   */
  function LeftIn(cfg: Config, s: State, script: seq<World>, legs: seq<Leg>): (left: seq<seq<Said>>)
    ensures left != []
    decreases |legs|
  {
    var r, n := RunOver(cfg, s, script), Trips(cfg, s, script);
    if WakesUp(r, legs) && n > 0 then
      [script[n - 1].typedLeaving] + LeftIn(cfg, Rise(r, legs[0]), legs[0].script, legs[1..])
    else if r.Ended? && r.outcome.Success? && n > 0 then [script[n - 1].late]
    else [r.s.inbox.pending]
  }

  predicate AllOwn(script: seq<World>, legs: seq<Leg>) {
    OwnGoals(script) && forall i :: 0 <= i < |legs| ==> OwnGoals(legs[i].script)
  }

  lemma RiseKeeps(before: seq<Said>, own: bool, r: Run, leg: Leg)
    requires r.Ended? && r.s.checkpoint.Some? && Journal.Ended(before, own, r.s, Failure(Suspended))
    ensures var s := Rise(r, leg);
            && Kept(StoryOf(r.s.trace).drained, own, s) && s.inbox.accepting && s.inbox.arrived == leg.waiting
            && StoryOf(s.trace).drained == StoryOf(r.s.trace).drained
  {
    hide StoryOf;
    Law();
    var drained := StoryOf(r.s.trace).drained;
    assert drained + [] == drained && [] + leg.waiting == leg.waiting;
  }

  // A run falls asleep with an empty inbox.

  lemma BoundaryOpen(s: State, w: World)
    ensures Boundary(s, w).s.inbox.accepting == s.inbox.accepting
  {
    hide Drain, Flush;
    var s1 := Arrive(s, w.typedBefore).(cancelled := s.cancelled || w.cancelBefore);
    DrainFrame(s1);
    var s2 := MaybeSetMarker(Drain(s1));
    FlushCounters(s2.(entries := SUMMARY));
    if w.compaction.Replaced? {
      FlushCounters(s2.(entries := w.compaction.entries));
    }
  }

  lemma ModelStepOpen(s: State, w: World)
    ensures ModelStep(s, w).0.inbox.accepting == s.inbox.accepting
  {
    hide Then, AskTrace, AskAtoms, Settle;
  }

  lemma SleepsEmpty(cfg: Config, s: State, w: World)
    requires s.inbox.accepting
    ensures var r := Pass(cfg, s, w); Resume.Sleeps(r) ==> r.s.inbox.pending == [] && r.s.inbox.accepting
  {
    hide Boundary, ModelStep, OnDone, OnCalls, OnError, Account;
    BoundaryOpen(s, w);
    match Boundary(s, w) {
      case Halt(_) =>
      case Abandon(_) =>
      case Go(s1) =>
        ModelStepOpen(s1, w);
        var (s2, reply) := ModelStep(s1, w);
        match reply {
          case Done(text, leaked, cleaned, usage, finish) =>
            Resume.OnDoneAwake(cfg, Account(s2.(finish := finish), usage), w, text, leaked, cleaned);
          case Calls(text, calls, usage) =>
            SessionLog.AccountPages(SessionLog.NO_READING, s2, usage);
            SessionLog.OnCallsPages(SessionLog.NO_READING, cfg, Account(s2, usage), w, text, calls);
          case Failed(e) =>
            Resume.OnErrorAwake(cfg, s2, e);
        }
    }
  }

  lemma EpilogueTakes(s: State, outcome: Outcome, w: World)
    ensures Epilogue(s, outcome, w).inbox.pending ==
            s.inbox.pending + if s.inbox.accepting then w.typedLeaving else []
  {
    hide Flush, ContinueFor, Then;
    FlushCounters(SetAccepting(Arrive(s, w.typedLeaving), false));
    assert s.inbox.pending + [] == s.inbox.pending;
  }

  lemma {:induction false} SleepLeaves(before: seq<Said>, cfg: Config, s: State, script: seq<World>)
    requires Kept(before, false, s) && s.inbox.accepting
    ensures var r, n := RunOver(cfg, s, script), Trips(cfg, s, script);
            r.Ended? && r.outcome == Failure(Suspended) ==>
              n > 0 && r.s.inbox.pending == script[n - 1].typedLeaving
    decreases |script|
  {
    hide Pass, Epilogue, Kept;
    if script != [] {
      PassKeeps(before, false, cfg, s, script[0]);
      SleepsEmpty(cfg, s, script[0]);
      match Pass(cfg, s, script[0]) {
        case Again(s1, _) => SleepLeaves(before, cfg, s1, script[1..]);
        case Leave(s1, outcome) =>
          EpilogueTakes(s1, outcome, script[0]);
          assert [] + script[0].typedLeaving == script[0].typedLeaving;
        case Drop(_) =>
      }
    }
  }

  /** What a logical run owes its users and its goals, the latter while nobody else touches them. */
  predicate LogicallyDelivered(
    before: seq<Said>, own: bool, r: Run, boxes: seq<Inbox>, left: seq<seq<Said>>) {
    && |boxes| == |left| > 0 && r.s.inbox == boxes[|boxes| - 1]
    && StoryOf(r.s.trace).drained == before + ConsumedIn(boxes)
    && (forall i :: 0 <= i < |boxes| ==>
          boxes[i].arrived == boxes[i].consumed + boxes[i].pending && boxes[i].pending == left[i])
    && (r.Ended? <==> !r.s.inbox.accepting)
    && (own ==> Journal.Settled(r.s))
    && (own && StoryOf(r.s.trace).over ==> r.Ended? && r.outcome.Success? && r.s.goal.None?)
  }

  lemma LastDelivered(before: seq<Said>, own: bool, r: Run, script: seq<World>, n: nat, left: seq<Said>)
    requires Delivered(before, own, r, script, n)
    requires left == if r.Ended? && r.outcome.Success? && 0 < n <= |script| then script[n - 1].late
                     else r.s.inbox.pending
    ensures LogicallyDelivered(before, own, r, [r.s.inbox], [left])
  {
    hide StoryOf;
    assert [r.s.inbox][1..] == [];
    assert ConsumedIn([r.s.inbox]) == r.s.inbox.consumed + [] == r.s.inbox.consumed;
    match r {
      case Going(_) =>
      case Abandoned(_) =>
      case Ended(_, _) =>
    }
  }

  lemma EarlierDelivered(
    before: seq<Said>, own: bool, first: Inbox, drained: seq<Said>, r: Run, boxes: seq<Inbox>,
    left: seq<seq<Said>>, leaving: seq<Said>)
    requires drained == before + first.consumed && first.arrived == first.consumed + first.pending
    requires first.pending == leaving && LogicallyDelivered(drained, own, r, boxes, left)
    ensures LogicallyDelivered(before, own, r, [first] + boxes, [leaving] + left)
  {
    hide StoryOf, Journal.Settled;
    var all, lefts := [first] + boxes, [leaving] + left;
    assert all[1..] == boxes;
    assert before + (first.consumed + ConsumedIn(boxes)) == before + first.consumed + ConsumedIn(boxes);
    forall i | 0 <= i < |all|
      ensures all[i].arrived == all[i].consumed + all[i].pending && all[i].pending == lefts[i]
    {
      if i > 0 {
        assert all[i] == boxes[i - 1] && lefts[i] == left[i - 1];
      }
    }
  }

  lemma {:induction false} LogicallyDelivers(
    before: seq<Said>, own: bool, cfg: Config, s: State, script: seq<World>, legs: seq<Leg>)
    requires Kept(before, own, s) && s.inbox.accepting && (own ==> AllOwn(script, legs))
    ensures LogicallyDelivered(before, own, LogicalRun(cfg, s, script, legs), Inboxes(cfg, s, script, legs),
                               LeftIn(cfg, s, script, legs))
    decreases |legs|
  {
    hide RunOver, Rise, StoryOf, Kept, LogicallyDelivered, Trips;
    RunDelivers(before, own, cfg, s, script);
    LogicalRunStep(cfg, s, script, legs);
    var r, n := RunOver(cfg, s, script), Trips(cfg, s, script);
    if WakesUp(r, legs) {
      KeptPlain(before, own, s);
      SleepLeaves(before, cfg, s, script);
      SleepsWithCheckpoint(cfg, s, script);
      var drained := StoryOf(r.s.trace).drained;
      RiseKeeps(before, own, r, legs[0]);
      LogicallyDelivers(drained, own, cfg, Rise(r, legs[0]), legs[0].script, legs[1..]);
      EarlierDelivered(
        before, own, r.s.inbox, drained, LogicalRun(cfg, s, script, legs),
        Inboxes(cfg, Rise(r, legs[0]), legs[0].script, legs[1..]),
        LeftIn(cfg, Rise(r, legs[0]), legs[0].script, legs[1..]), script[n - 1].typedLeaving);
    } else {
      LastDelivered(before, own, r, script, n,
                    if r.Ended? && r.outcome.Success? && n > 0 then script[n - 1].late else r.s.inbox.pending);
      assert [r.s.inbox] + [] == [r.s.inbox];
    }
  }

  lemma KeptPlain(before: seq<Said>, own: bool, s: State)
    requires Kept(before, own, s)
    ensures Kept(before, false, s)
  {
  }

  /**
   Over all its segments a logical run logs what it drains, once and in order; each segment has drained all it accepted
   but what was typed while it fell asleep or, when it succeeds, pushed after its last drain.
   */
  lemma NoInputLostOverSuspensions(
    cfg: Config, entries: seq<Entry>, waiting: seq<Said>, goal: Option<Goal>, left: Option<ContinueKind>,
    script: seq<World>, legs: seq<Leg>)
    ensures var s := Fresh(entries, waiting, goal, left);
            var r, boxes := LogicalRun(cfg, s, script, legs), Inboxes(cfg, s, script, legs);
            && StoryOf(r.s.trace).drained == ConsumedIn(boxes)
            && |boxes| == |LeftIn(cfg, s, script, legs)|
            && (forall i :: 0 <= i < |boxes| ==>
                  boxes[i].arrived == boxes[i].consumed + LeftIn(cfg, s, script, legs)[i])
            && (r.Ended? <==> !r.s.inbox.accepting)
  {
    hide LogicalRun, Inboxes, LeftIn, StoryOf, Fresh;
    var s := Fresh(entries, waiting, goal, left);
    FreshKeeps(entries, waiting, goal, left);
    KeptPlain([], true, s);
    LogicallyDelivers([], false, cfg, s, script, legs);
    assert [] + ConsumedIn(Inboxes(cfg, s, script, legs)) == ConsumedIn(Inboxes(cfg, s, script, legs));
  }

  // ------------------------------------------------------------- goals

  /**
   The goal protocol over suspensions: wherever the log is cut, the markers since the last opener form a sentence;
   progress is logged, announced and told in that order; a verdict ends the whole run, and ends it well.
   */
  lemma GoalProtocolOverSuspensions(
    cfg: Config, entries: seq<Entry>, waiting: seq<Said>, goal: Option<Goal>, left: Option<ContinueKind>,
    script: seq<World>, legs: seq<Leg>)
    requires AllOwn(script, legs)
    ensures var r := LogicalRun(cfg, Fresh(entries, waiting, goal, left), script, legs);
            var t := r.s.trace;
            && (forall n :: 0 <= n <= |t| ==>
                  var j := StoryOf(t[..n]); Sentence(MarksOf(t[..n]), j.sets == 1, j.progress, j.over))
            && (forall i :: 0 <= i < |t| ==> Told(t, i))
            && (StoryOf(t).over ==> r.Ended? && r.outcome.Success? && r.s.goal.None?)
  {
    hide LogicalRun, Inboxes, LeftIn, StoryOf, Fresh, MarksOf, Sentence;
    var s := Fresh(entries, waiting, goal, left);
    FreshKeeps(entries, waiting, goal, left);
    LogicallyDelivers([], true, cfg, s, script, legs);
    var t := LogicalRun(cfg, s, script, legs).s.trace;
    forall n | 0 <= n <= |t|
      ensures var j := StoryOf(t[..n]); Sentence(MarksOf(t[..n]), j.sets == 1, j.progress, j.over)
    {
      StoryBefore(t, n);
      MarksRead(t[..n]);
    }
    forall i | 0 <= i < |t| ensures Told(t, i) {
      ProgressIsTold(t, i);
    }
  }

  // ------------------------------------------------------------- requests

  /** Some trip of some segment installs a conversation that cannot be sent. */
  predicate LogicallySpoiled(cfg: Config, s: State, script: seq<World>, legs: seq<Leg>)
    decreases |legs|
  {
    Requests.Spoiled(cfg, s, script) ||
    (var r := RunOver(cfg, s, script);
     WakesUp(r, legs) && LogicallySpoiled(cfg, Rise(r, legs[0]), legs[0].script, legs[1..]))
  }

  predicate AllSendable(legs: seq<Leg>) {
    forall i :: 0 <= i < |legs| ==> Ready(legs[i].entries)
  }

  lemma RiseAsks(r: Run, leg: Leg)
    ensures Requests.AllReady(Rise(r, leg).trace) <==> Requests.AllReady(r.s.trace)
    ensures r.s.checkpoint.Some? ==> Rise(r, leg).entries == leg.entries
  {
    hide Requests.AllReady;
    Requests.Law();
  }

  lemma {:induction false} LogicalAsksRemain(cfg: Config, s: State, script: seq<World>, legs: seq<Leg>)
    ensures Requests.AllReady(LogicalRun(cfg, s, script, legs).s.trace) ==> Requests.AllReady(s.trace)
    decreases |legs|
  {
    hide RunOver, Rise, Requests.AllReady;
    LogicalRunStep(cfg, s, script, legs);
    Requests.AsksRemain(cfg, s, script);
    var r := RunOver(cfg, s, script);
    if WakesUp(r, legs) {
      RiseAsks(r, legs[0]);
      LogicalAsksRemain(cfg, Rise(r, legs[0]), legs[0].script, legs[1..]);
    }
  }

  lemma {:induction false} LogicalRunAsks(cfg: Config, s: State, script: seq<World>, legs: seq<Leg>)
    requires Requests.Sane(s) && AllSendable(legs)
    ensures Requests.AllReady(LogicalRun(cfg, s, script, legs).s.trace)
            <==> Requests.AllReady(s.trace) && !LogicallySpoiled(cfg, s, script, legs)
    decreases |legs|
  {
    hide RunOver, Rise, Requests.AllReady, Requests.Spoiled, Ready;
    LogicalRunStep(cfg, s, script, legs);
    Requests.RunAsks(cfg, s, script);
    var r := RunOver(cfg, s, script);
    if WakesUp(r, legs) {
      SleepsWithCheckpoint(cfg, s, script);
      RiseAsks(r, legs[0]);
      if Requests.Spoiled(cfg, s, script) {
        LogicalAsksRemain(cfg, Rise(r, legs[0]), legs[0].script, legs[1..]);
      } else {
        LogicalRunAsks(cfg, Rise(r, legs[0]), legs[0].script, legs[1..]);
      }
    }
  }

  /** Woken with grammatical conversations, a logical run sends only such, unless and only unless it is spoiled. */
  lemma RequestsGrammaticalOverSuspensions(
    cfg: Config, entries: seq<Entry>, waiting: seq<Said>, goal: Option<Goal>, left: Option<ContinueKind>,
    script: seq<World>, legs: seq<Leg>)
    requires Grammatical(entries) && forall i :: 0 <= i < |legs| ==> Grammatical(legs[i].entries)
    ensures var s := Fresh(entries, waiting, goal, left);
            var t := LogicalRun(cfg, s, script, legs).s.trace;
            (forall i :: 0 <= i < |t| && t[i].Asked? ==> Grammatical(t[i].entries))
            <==> !LogicallySpoiled(cfg, s, script, legs)
  {
    hide Grammatical, Ready, LogicalRun, LogicallySpoiled;
    var s := Fresh(entries, waiting, goal, left);
    ReadyIffGrammatical(entries);
    forall i | 0 <= i < |legs| ensures Ready(legs[i].entries) {
      ReadyIffGrammatical(legs[i].entries);
    }
    LogicalRunAsks(cfg, s, script, legs);
    var t := LogicalRun(cfg, s, script, legs).s.trace;
    forall i | 0 <= i < |t| && t[i].Asked? ensures Ready(t[i].entries) <==> Grammatical(t[i].entries) {
      ReadyIffGrammatical(t[i].entries);
    }
    assert Requests.AllReady(s.trace);
  }

  // ------------------------------------------------------------- the session log

  /** Each wake-up rebuilds the conversation from the log. */
  predicate Rebuilt(base: SessionLog.Reading, cfg: Config, s: State, script: seq<World>, legs: seq<Leg>)
    decreases |legs|
  {
    var r := RunOver(cfg, s, script);
    WakesUp(r, legs) ==>
      && SessionLog.Spoken(legs[0].entries) == SessionLog.Logged(base, r.s.trace)
      && Rebuilt(base, cfg, Rise(r, legs[0]), legs[0].script, legs[1..])
  }

  /** Every trip since the last wake-up logs in order. */
  predicate InStepSinceWake(cfg: Config, s: State, script: seq<World>, legs: seq<Leg>)
    decreases |legs|
  {
    var r := RunOver(cfg, s, script);
    if WakesUp(r, legs) then InStepSinceWake(cfg, Rise(r, legs[0]), legs[0].script, legs[1..])
    else SessionLog.AllInStep(cfg, s, script)
  }

  lemma RiseLevel(base: SessionLog.Reading, r: Run, leg: Leg)
    requires r.s.checkpoint.Some? && SessionLog.Spoken(leg.entries) == SessionLog.Logged(base, r.s.trace)
    ensures SessionLog.Level(base, Rise(r, leg), true)
  {
    hide SessionLog.Spoken, SessionLog.Logged, Card;
    SessionLog.Law();
    SessionLog.CardOfNothing();
    SessionLog.AddNothing(SessionLog.Logged(base, r.s.trace));
  }

  lemma {:induction false} LogicallyTold(
    base: SessionLog.Reading, cfg: Config, s: State, script: seq<World>, legs: seq<Leg>)
    requires SessionLog.Level(base, s, true) && Rebuilt(base, cfg, s, script, legs)
    requires SessionLog.AllCalm(script) && forall i :: 0 <= i < |legs| ==> SessionLog.AllCalm(legs[i].script)
    ensures var r := LogicalRun(cfg, s, script, legs);
            r.Ended? && (r.outcome.Success? || (r.outcome == Failure(Suspended) && !r.s.cancelled)) ==>
              (SessionLog.Logged(base, r.s.trace) == SessionLog.Spoken(r.s.entries)
               <==> InStepSinceWake(cfg, s, script, legs))
    decreases |legs|
  {
    hide RunOver, Rise, SessionLog.Level, SessionLog.AllCalm, SessionLog.AllInStep, SessionLog.Logged,
      SessionLog.Spoken;
    LogicalRunStep(cfg, s, script, legs);
    SessionLog.RunTold(base, cfg, s, script, true);
    var r := RunOver(cfg, s, script);
    if WakesUp(r, legs) {
      SleepsWithCheckpoint(cfg, s, script);
      RiseLevel(base, r, legs[0]);
      LogicallyTold(base, cfg, Rise(r, legs[0]), legs[0].script, legs[1..]);
    }
  }

  /**
   Over suspensions, with each wake-up reading the conversation back from the log: log and conversation of a run that
   ends well or is asleep agree if and only if every trip since the last wake-up logs in order.
   */
  lemma LogRefinesTranscriptOverSuspensions(
    cfg: Config, entries: seq<Entry>, waiting: seq<Said>, goal: Option<Goal>, left: Option<ContinueKind>,
    script: seq<World>, legs: seq<Leg>)
    requires SessionLog.AllCalm(script) && forall i :: 0 <= i < |legs| ==> SessionLog.AllCalm(legs[i].script)
    requires Rebuilt(SessionLog.Spoken(entries), cfg, Fresh(entries, waiting, goal, left), script, legs)
    ensures var s, base := Fresh(entries, waiting, goal, left), SessionLog.Spoken(entries);
            var r := LogicalRun(cfg, s, script, legs);
            r.Ended? && (r.outcome.Success? || (r.outcome == Failure(Suspended) && !r.s.cancelled)) ==>
              (SessionLog.Logged(base, r.s.trace) == SessionLog.Spoken(r.s.entries)
               <==> InStepSinceWake(cfg, s, script, legs))
  {
    hide LogicalRun, Rebuilt, InStepSinceWake, SessionLog.Level, SessionLog.AllCalm, SessionLog.Spoken,
      SessionLog.Logged;
    SessionLog.FreshLevel(entries, waiting, goal, left);
    LogicallyTold(SessionLog.Spoken(entries), cfg, Fresh(entries, waiting, goal, left), script, legs);
  }
}
