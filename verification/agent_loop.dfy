/**
 The agent run loop as a step function.

 `Pass` is one trip round the loop of `run_agent`; everything the loop does not
 decide itself (model replies, tool outcomes, hooks, the judge, the user typing
 or pressing stop) comes in as a `World`, one per trip, so a statement over all
 scripts of worlds is a statement over all runs. What the run emits and what it
 writes to the session log goes onto one trace, in the order it happens.
 */
module AgentLoop {
  import opened Transcript
  import opened Options
  import opened Retry

  const MAX_STOP_INJECTIONS: nat := 3
  const MAX_TOOL_XML_LEAK_RECOVERIES: nat := 2

  // ------------------------------------------------------------- trace

  datatype Atom = Ch(c: char) | Tool(id: CallId)

  datatype MarkKind = GoalSet | Progress | Achieved | Impossible

  /** A line appended to the session log. */
  datatype Line =
    | DrainedUser(said: Said)
    | FeedbackUser(said: Said)
    | AssistantCard(atoms: seq<Atom>)
    | GoalMark(kind: MarkKind, iteration: nat)
    | HookMark
    | CompactMark
    | InterruptedMark

  datatype StopReason = EndTurn | MaxIterations | TurnFailed | TurnCancelled

  datatype Act =
    | RunStarted
    | RunResumed
    | RunSuspended
    | RunFinished(total: Usage)
    | RunCancelled
    | RunFailed(error: ModelError)
    | TurnStarted
    | TurnFinished(reason: StopReason)
    | ModelStarted(index: nat)
    | ModelFinished(index: nat)
    | ToolStarted(index: nat)
    | ToolFinished(index: nat)
    | Asked(entries: seq<Entry>)
    | Retrying(attempt: nat, seconds: nat)
    | Used(usage: Usage)
    | Dispatched(first: nat, size: nat)
    | TextDone(text: string)
    | Compacted
    | GoalProgressed(iteration: nat)
    | GoalAchieved
    | GoalImpossible
    | Wrote(line: Line)

  type Trace = seq<Act>

  function Then(t: Trace, a: Act): Trace {
    t + [a]
  }

  // ------------------------------------------------------------- state

  datatype Config = Config(hasHooks: bool, hasJudge: bool, maxToolIterations: Option<nat>, keepRecentTurns: nat)

  /** What a checkpoint carries across a suspension. */
  datatype Counters = Counters(iteration: nat, modelStep: nat, toolStep: nat, offset: nat, total: Usage)

  const ZERO := Counters(0, 0, 0, 0, NO_USAGE)

  /** What it does not. */
  datatype Budgets = Budgets(hooks: nat, goals: nat, leaks: nat, resetTried: bool)

  const UNSPENT := Budgets(0, 0, 0, false)

  datatype Goal = Goal(condition: string, iterations: nat, pendingSet: bool)

  /** The injection queue; `arrived` and `consumed` record what was accepted and what was drained. */
  datatype Inbox = Inbox(accepting: bool, pending: seq<Said>, consumed: seq<Said>, arrived: seq<Said>)

  /** The assistant text and tool calls not yet in the session log. */
  datatype Segment = Segment(atoms: seq<Atom>, final: string)

  datatype ContinueKind = Truncated | Refused | Filtered | Abnormal | NetworkError

  datatype State = State(
    entries: seq<Entry>,
    inbox: Inbox,
    cancelled: bool,
    c: Counters,
    b: Budgets,
    goal: Option<Goal>,
    seg: Segment,
    finish: Finish,
    continueEntry: Option<ContinueKind>,
    checkpoint: Option<Counters>,
    trace: Trace)

  // ------------------------------------------------------------- world

  datatype Compaction = NotNeeded | Summarised | Replaced(entries: seq<Entry>) | CompactionFailed | CompactionCancelled

  datatype HookOutcome = Passed | Blocked | InjectFollowup(reminder: string)

  datatype Verdict = IsAchieved | IsImpossible | NotYet(reason: string)

  datatype GoalEdit = KeepGoal | SetGoal(condition: string) | ClearGoal

  /** Everything one trip round the loop meets; the fields are in the order they are met. */
  datatype World = World(
    typedBefore: seq<Said>,
    cancelBefore: bool,
    compaction: Compaction,
    streaming: bool,
    attempts: Attempts,
    goalEdit: GoalEdit,
    typedDuringModel: seq<Said>,
    cancelTools: bool,
    started: nat,
    toolError: Option<ClientError>,
    typedDuringTools: seq<Said>,
    typedBeforeDrain: seq<Said>,
    typedWhileClosing: seq<Said>,
    typedWhileClosed: seq<Said>,
    late: seq<Said>,
    suspend: bool,
    hook: HookOutcome,
    cancelJudge: bool,
    verdict: Verdict,
    typedLeaving: seq<Said>)

  // ------------------------------------------------------------- small steps

  function Do(s: State, a: Act): State {
    s.(trace := Then(s.trace, a))
  }

  /** Inputs offered to the run: taken only while the flag is up. */
  function Arrive(s: State, typed: seq<Said>): State {
    if s.inbox.accepting then PushLate(s, typed) else s
  }

  /** Inputs whose sender saw the flag up before it went down. */
  function PushLate(s: State, typed: seq<Said>): State {
    s.(inbox := s.inbox.(pending := s.inbox.pending + typed, arrived := s.inbox.arrived + typed))
  }

  function SetAccepting(s: State, accepting: bool): State {
    s.(inbox := s.inbox.(accepting := accepting))
  }

  function WriteUsers(t: Trace, drained: seq<Said>): Trace
    decreases |drained|
  {
    if drained == [] then t else WriteUsers(Then(t, Wrote(DrainedUser(drained[0]))), drained[1..])
  }

  function PushUsers(es: seq<Entry>, drained: seq<Said>): seq<Entry>
    decreases |drained|
  {
    if drained == [] then es else PushUsers(Push(es, User(drained[0])), drained[1..])
  }

  /** Empties the queue: each input is logged and joins the conversation, in order. */
  function Drain(s: State): State {
    s.(inbox := s.inbox.(pending := [], consumed := s.inbox.consumed + s.inbox.pending),
       entries := PushUsers(s.entries, s.inbox.pending),
       trace := WriteUsers(s.trace, s.inbox.pending))
  }

  function Feedback(s: State, said: Said): State {
    Do(s, Wrote(FeedbackUser(said))).(entries := Push(s.entries, User(said)))
  }

  function MaybeSetMarker(s: State): State {
    if s.goal.Some? && s.goal.value.pendingSet then
      Do(s, Wrote(GoalMark(GoalSet, 0))).(goal := Some(s.goal.value.(pendingSet := false)))
    else s
  }

  // The persister: accumulate what is shown, write it out as one card.

  function Chars(text: string): seq<Atom> {
    seq(|text|, i requires 0 <= i < |text| => Ch(text[i]))
  }

  function Tools(calls: seq<CallId>): seq<Atom> {
    seq(|calls|, i requires 0 <= i < |calls| => Tool(calls[i]))
  }

  function TextIn(atoms: seq<Atom>): string {
    if atoms == [] then ""
    else
      var last := atoms[|atoms| - 1];
      TextIn(atoms[..|atoms| - 1]) + if last.Ch? then [last.c] else []
  }

  predicate EndsWith(s: string, t: string) {
    |t| <= |s| && s[|s| - |t|..] == t
  }

  const NOTHING := Segment([], "")

  function Show(s: State, atoms: seq<Atom>): State {
    s.(seg := s.seg.(atoms := s.seg.atoms + atoms))
  }

  /** The final text is added only where the streamed text does not already end with it. */
  function Card(seg: Segment): seq<Atom> {
    if seg.final == "" || EndsWith(TextIn(seg.atoms), seg.final) then seg.atoms
    else seg.atoms + Chars(seg.final)
  }

  function Flush(s: State): State {
    var card := Card(s.seg);
    (if card == [] then s else Do(s, Wrote(AssistantCard(card)))).(seg := NOTHING)
  }

  function FlushIfPending(s: State): State {
    if s.inbox.pending != [] then Flush(s) else s
  }

  // ------------------------------------------------------------- top of the loop

  datatype Gate = Go(s: State) | Halt(s: State) | Abandon(s: State)

  function Install(s: State, es: seq<Entry>): State {
    Do(Do(Flush(s.(entries := es)), Wrote(CompactMark)), Compacted)
  }

  function Compact(s: State, compaction: Compaction): Gate {
    match compaction
    case NotNeeded => Go(s)
    case CompactionFailed => Go(s)
    case Summarised => Go(Install(s, SUMMARY))
    case Replaced(es) => Go(Install(s, es))
    case CompactionCancelled => Abandon(s)
  }

  function Boundary(s: State, w: World): Gate {
    var s1 := Arrive(s, w.typedBefore).(cancelled := s.cancelled || w.cancelBefore);
    if s1.cancelled then Halt(Drain(s1))
    else Compact(MaybeSetMarker(Drain(s1)), w.compaction)
  }

  // ------------------------------------------------------------- model step

  function Streamed(a: Attempt): seq<Atom> {
    match a.reply
    case Done(text, _, _, _, _) => Chars(text)
    case Calls(text, calls, _) => Chars(text) + Tools(calls)
    case Failed(_) => Chars(a.partial)
  }

  /** What the retry loop emits from its `k`-th call on; every call sends the same entries. */
  function AskTrace(t: Trace, es: seq<Entry>, a: Attempts, k: nat): Trace
    requires k <= MAX_MODEL_RETRIES
    decreases MAX_MODEL_RETRIES - k
  {
    var t1 := Then(t, Asked(es));
    if Retries(a, k) then
      var t2 := Then(t1, Retrying(k + 1, RetryDelay(k + 1)));
      if a[k].cancelled then t2 else AskTrace(t2, es, a, k + 1)
    else t1
  }

  /** What it shows on the streaming path: a failed call's part is not taken back. */
  function AskAtoms(a: Attempts, k: nat): seq<Atom>
    requires k <= MAX_MODEL_RETRIES
    decreases MAX_MODEL_RETRIES - k
  {
    Streamed(a[k]) + if Retries(a, k) && !a[k].cancelled then AskAtoms(a, k + 1) else []
  }

  function TryModel(s: State, streaming: bool, a: Attempts): (State, Reply) {
    var shown := if streaming then Show(s, AskAtoms(a, 0)) else s;
    var settled := Settle(a, 0);
    (shown.(trace := AskTrace(s.trace, s.entries, a, 0), cancelled := s.cancelled || settled.cancelled),
     settled.reply)
  }

  function EditGoal(s: State, edit: GoalEdit): State {
    match edit
    case KeepGoal => s
    case SetGoal(condition) => s.(goal := Some(Goal(condition, 0, true)))
    case ClearGoal => s.(goal := None)
  }

  function StartTurn(s: State): State {
    var i := s.c.modelStep + 1;
    Do(Do(s, TurnStarted).(c := s.c.(modelStep := i)), ModelStarted(i))
  }

  function ModelStep(s: State, w: World): (State, Reply) {
    var (s1, reply) := TryModel(StartTurn(s), w.streaming, w.attempts);
    (EditGoal(Arrive(Do(s1, ModelFinished(s1.c.modelStep)), w.typedDuringModel), w.goalEdit), reply)
  }

  function Account(s: State, usage: Usage): State {
    Do(s, Used(usage)).(c := s.c.(total := s.c.total.Plus(usage)))
  }

  // ------------------------------------------------------------- the three arms

  /** The six ways round again. */
  datatype Why = ForReset | ForLeak | ForInput | ForHook | ForGoal | ForTools

  datatype Outcome = Success(text: string) | Failure(error: ModelError)

  datatype Trip = Again(s: State, why: Why) | Leave(s: State, outcome: Outcome) | Drop(s: State)

  function OnError(cfg: Config, s: State, e: ModelError): Trip {
    if e.ContextTooLong() && !s.b.resetTried then
      var s1 := Install(s.(b := s.b.(resetTried := true)), EmergencyReset(s.entries, cfg.keepRecentTurns));
      Again(Do(s1, TurnFinished(TurnFailed)), ForReset)
    else
      Leave(Do(s, TurnFinished(TurnFailed)), Failure(e))
  }

  function Recover(s: State, streaming: bool, text: string, cleaned: string): Trip {
    var s1 := if streaming then s else Show(s, Chars(text));
    var s2 := s1.(b := s.b.(leaks := s.b.leaks + 1), entries := Push(s.entries, Assistant(cleaned, [])));
    Again(Feedback(s2, FormatNotice), ForLeak)
  }

  /** The end of an answer: close the inbox, then take what is still in it. */
  function CloseTurn(s: State, w: World, text: string, cleaned: string): State {
    var s1 := Do(Do(s.(seg := s.seg.(final := text)), TextDone(text)), TurnFinished(EndTurn));
    var s2 := Arrive(FlushIfPending(s1), w.typedWhileClosing);
    var s3 := s2.(entries := Push(s.entries, Assistant(cleaned, [])));
    Arrive(SetAccepting(s3, false), w.typedWhileClosed)
  }

  function Reopen(s: State): State {
    SetAccepting(s, true)
  }

  function Conclude(s: State, kind: MarkKind, a: Act): State {
    Do(Do(s.(goal := None), Wrote(GoalMark(kind, s.b.goals))), a)
  }

  /** Progress is on disk before anyone hears of it, then the model is told what is missing. */
  function Persist(s: State, condition: string, reason: string): State {
    var n := s.b.goals + 1;
    var s1 := s.(b := s.b.(goals := n), goal := Some(Goal(condition, n, false)));
    Reopen(Feedback(Do(Do(s1, Wrote(GoalMark(Progress, n))), GoalProgressed(n)), GoalFeedback(reason)))
  }

  function Judge(cfg: Config, s: State, w: World, text: string): Trip {
    if s.goal.None? then Leave(s, Success(text))
    else if !cfg.hasJudge then Leave(Flush(s), Success(text))
    else
      var s1 := Flush(s).(cancelled := s.cancelled || w.cancelJudge);
      match w.verdict
      case IsAchieved => Leave(Conclude(s1, Achieved, GoalAchieved), Success(text))
      case IsImpossible => Leave(Conclude(s1, Impossible, GoalImpossible), Success(text))
      case NotYet(reason) =>
        if s1.cancelled then Leave(s1, Failure(Cancelled))
        else Again(Persist(s1, s.goal.value.condition, reason), ForGoal)
  }

  function StopHook(cfg: Config, s: State, w: World, text: string): Trip {
    if cfg.hasHooks && s.b.hooks < MAX_STOP_INJECTIONS then
      var s1 := Do(Flush(s), Wrote(HookMark));
      if w.hook.InjectFollowup? && w.hook.reminder != "" then
        var s2 := s1.(b := s.b.(hooks := s.b.hooks + 1));
        Again(Reopen(Feedback(s2, HookFeedback(w.hook.reminder))), ForHook)
      else
        Judge(cfg, s1, w, text)
    else
      Judge(cfg, s, w, text)
  }

  function OnDone(cfg: Config, s: State, w: World, text: string, leaked: bool, cleaned: string): Trip {
    if leaked && s.b.leaks < MAX_TOOL_XML_LEAK_RECOVERIES then Recover(s, w.streaming, text, cleaned)
    else
      var kept := if leaked then cleaned else text;
      var s1 := CloseTurn(s, w, text, kept);
      var s2 := PushLate(Drain(s1), w.late);
      if s1.inbox.pending != [] then Again(Reopen(s2), ForInput)
      else StopHook(cfg, s2, w, kept)
  }

  /** How many calls the dispatcher got to: all of them, unless a cancel stopped it part-way. */
  function Reached(w: World, calls: seq<CallId>, cancelled: bool): (n: nat)
    ensures n <= |calls|
  {
    if cancelled && w.started < |calls| then w.started else |calls|
  }

  function Dispatch(s: State, w: World, calls: seq<CallId>): State {
    var i := s.c.toolStep + 1;
    var s1 := Do(Do(s.(c := s.c.(iteration := s.c.iteration + 1, toolStep := i)), ToolStarted(i)),
                 Dispatched(s.c.offset, |calls|));
    var s2 := Arrive(s1, w.typedDuringTools).(cancelled := s.cancelled || w.cancelTools);
    if w.streaming then s2 else Show(s2, Tools(calls[..Reached(w, calls, s2.cancelled)]))
  }

  function Collect(s: State, w: World, calls: seq<CallId>): State {
    var results := ToolResults(calls[..Reached(w, calls, s.cancelled)]);
    var s1 := s.(entries := Push(s.entries, results), c := s.c.(offset := s.c.offset + |calls|));
    var s2 := Do(s1, ToolFinished(s.c.toolStep));
    Drain(Arrive(FlushIfPending(s2), w.typedBeforeDrain))
  }

  function Suspend(s: State): State {
    Do(Do(s, RunSuspended).(checkpoint := Some(s.c)), TurnFinished(EndTurn))
  }

  function AfterCalls(s: State, w: World, calls: seq<CallId>): Trip {
    if w.toolError.Some? then Leave(Do(s, TurnFinished(TurnCancelled)), Failure(w.toolError.value))
    else
      var s1 := Collect(s, w, calls);
      if w.suspend then Leave(Suspend(s1), Failure(Suspended))
      else Again(Do(s1, TurnFinished(EndTurn)), ForTools)
  }

  function OnCalls(cfg: Config, s: State, w: World, text: string, calls: seq<CallId>): Trip {
    var s1 := if w.streaming then s else Show(s, Chars(text));
    var s2 := s1.(entries := Push(s.entries, Assistant(text, calls)));
    if cfg.maxToolIterations.Some? && s.c.iteration >= cfg.maxToolIterations.value then
      Leave(Do(s2, TurnFinished(MaxIterations)), Failure(Other(false)))
    else
      AfterCalls(Dispatch(s2, w, calls), w, calls)
  }

  function Answer(cfg: Config, s: State, w: World, reply: Reply): Trip {
    match reply
    case Failed(e) => OnError(cfg, s, e)
    case Done(text, leaked, cleaned, usage, finish) =>
      OnDone(cfg, Account(s.(finish := finish), usage), w, text, leaked, cleaned)
    case Calls(text, calls, usage) =>
      OnCalls(cfg, Account(s, usage), w, text, calls)
  }

  function Pass(cfg: Config, s: State, w: World): Trip {
    match Boundary(s, w)
    case Halt(s1) => Leave(s1, Failure(Cancelled))
    case Abandon(s1) => Drop(s1)
    case Go(s1) =>
      var (s2, reply) := ModelStep(s1, w);
      Answer(cfg, s2, w, reply)
  }

  // ------------------------------------------------------------- whole runs

  function ContinueFor(outcome: Outcome, finish: Finish): Option<ContinueKind> {
    match outcome
    case Success(_) =>
      (match finish
       case Stop => None
       case Length => Some(Truncated)
       case Refusal => Some(Refused)
       case ContentFilter => Some(Filtered)
       case OtherFinish => Some(Abnormal))
    case Failure(e) =>
      if e.Cancelled? || e.Suspended? then None else Some(NetworkError)
  }

  function Epilogue(s: State, outcome: Outcome, w: World): State {
    var s1 := Flush(SetAccepting(Arrive(s, w.typedLeaving), false));
    match outcome
    case Success(_) =>
      Do(s1, RunFinished(s.c.total)).(continueEntry := ContinueFor(outcome, s.finish))
    case Failure(e) =>
      if e.Suspended? then s1
      else
        var s2 := Do(s1, Wrote(InterruptedMark));
        Do(s2, if e.Cancelled? then RunCancelled else RunFailed(e)).(
          continueEntry := ContinueFor(outcome, s.finish))
  }

  datatype Run = Going(s: State) | Ended(s: State, outcome: Outcome) | Abandoned(s: State)

  function RunOver(cfg: Config, s: State, script: seq<World>): Run
    decreases |script|
  {
    if script == [] then Going(s)
    else
      match Pass(cfg, s, script[0])
      case Again(s1, _) => RunOver(cfg, s1, script[1..])
      case Leave(s1, outcome) => Ended(Epilogue(s1, outcome, script[0]), outcome)
      case Drop(s1) => Abandoned(s1)
  }

  /** A new run over a conversation that is ready for a request; `waiting` inputs are already queued. */
  function Fresh(entries: seq<Entry>, waiting: seq<Said>, goal: Option<Goal>, left: Option<ContinueKind>): State {
    MaybeSetMarker(State(entries, Inbox(true, waiting, [], waiting), false, ZERO, UNSPENT, goal, NOTHING,
                         Stop, left, None, [RunStarted]))
  }

  /** The same logical run, woken from its checkpoint: counters come back, budgets do not. */
  function Resumed(s: State, entries: seq<Entry>, waiting: seq<Said>): State {
    match s.checkpoint
    case None => s
    case Some(c) =>
      Do(s, RunResumed).(entries := entries, inbox := Inbox(true, waiting, [], waiting), cancelled := false,
        c := c, b := UNSPENT, seg := NOTHING, finish := Stop, checkpoint := None)
  }

  /** How a suspended run is woken, and what it meets afterwards. */
  datatype Leg = Leg(entries: seq<Entry>, waiting: seq<Said>, script: seq<World>)

  /** A run through any number of suspensions. */
  function LogicalRun(cfg: Config, s: State, script: seq<World>, legs: seq<Leg>): Run
    decreases |legs|
  {
    var r := RunOver(cfg, s, script);
    if legs == [] || !r.Ended? || r.outcome != Failure(Suspended) then r
    else LogicalRun(cfg, Resumed(r.s, legs[0].entries, legs[0].waiting), legs[0].script, legs[1..])
  }
}
