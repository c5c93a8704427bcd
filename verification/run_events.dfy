/** What the kept books say about the event list itself, for every logical run from its first event on. */
module RunEvents {
  import opened Transcript
  import opened Retry
  import opened AgentLoop
  import opened Ledgers

  predicate IsTurnStart(a: Act) { a.TurnStarted? }
  predicate IsTurnEnd(a: Act) { a.TurnFinished? }
  predicate IsLeakNotice(a: Act) { a == Wrote(FeedbackUser(FormatNotice)) }
  predicate IsModelStart(a: Act) { a.ModelStarted? }
  predicate IsModelEnd(a: Act) { a.ModelFinished? }
  predicate IsToolStart(a: Act) { a.ToolStarted? }
  predicate IsToolEnd(a: Act) { a.ToolFinished? }
  predicate IsRequest(a: Act) { a.Asked? }
  predicate IsOpener(a: Act) { a.RunStarted? || a.RunResumed? }
  predicate IsSuspension(a: Act) { a.RunSuspended? }
  predicate IsTerminal(a: Act) { a.RunFinished? || a.RunCancelled? || a.RunFailed? }

  function Count(t: Trace, p: Act -> bool): nat {
    if t == [] then 0 else Count(t[..|t| - 1], p) + if p(t[|t| - 1]) then 1 else 0
  }

  /** Field by field. */
  function SumUsed(t: Trace): Usage {
    if t == [] then NO_USAGE
    else
      var before, a := SumUsed(t[..|t| - 1]), t[|t| - 1];
      if a.Used? then
        Usage(before.input + a.usage.input, before.output + a.usage.output,
              before.cacheRead + a.usage.cacheRead, before.cacheWrite + a.usage.cacheWrite)
      else before
  }

  /** The tool batches handed to the dispatcher: where each begins and how many calls it has. */
  function BatchesOf(t: Trace): seq<(nat, nat)> {
    if t == [] then []
    else
      var a := t[|t| - 1];
      BatchesOf(t[..|t| - 1]) + if a.Dispatched? then [(a.first, a.size)] else []
  }

  // ------------------------------------------------------------- readings

  lemma CountLaw(t: Trace, a: Act, p: Act -> bool)
    ensures Count(Then(t, a), p) == Count(t, p) + if p(a) then 1 else 0
  {
    assert (t + [a])[..|t|] == t;
  }

  // One act's worth of each reading.

  lemma TurnStep(l: Ledger, a: Act)
    ensures var m := Read(l, a).steps;
            && m.turns == l.steps.turns + (if IsTurnStart(a) then 1 else 0)
            && m.closed == l.steps.closed + (if IsTurnEnd(a) then 1 else 0)
            && m.notices == l.steps.notices + (if IsLeakNotice(a) then 1 else 0)
  {
    match a {
      case TurnStarted =>
      case TurnFinished(_) =>
      case Wrote(_) =>
      case _ =>
    }
  }

  lemma ModelStepStep(l: Ledger, a: Act)
    requires Read(l, a).steps.ok
    ensures var m := Read(l, a).steps;
            && l.steps.ok
            && (IsModelStart(a) ==> m.model == l.steps.model + 1 && !l.steps.modelOpen && m.modelOpen)
            && (!IsModelStart(a) ==> m.model == l.steps.model)
            && (IsModelEnd(a) ==> l.steps.modelOpen && !m.modelOpen)
            && (!IsModelStart(a) && !IsModelEnd(a) ==> m.modelOpen == l.steps.modelOpen)
  {
    match a {
      case ModelStarted(_) =>
      case ModelFinished(_) =>
      case Wrote(_) =>
      case _ =>
    }
  }

  lemma ToolStepStep(l: Ledger, a: Act)
    requires Read(l, a).steps.ok
    ensures var m := Read(l, a).steps;
            && l.steps.ok
            && (IsToolStart(a) ==> m.tool == l.steps.tool + 1 && !l.steps.toolOpen && m.toolOpen)
            && (!IsToolStart(a) ==> m.tool == l.steps.tool)
            && (IsToolEnd(a) ==> l.steps.toolOpen && !m.toolOpen)
            && (!IsToolStart(a) && !IsToolEnd(a) ==> m.toolOpen == l.steps.toolOpen)
  {
    match a {
      case ToolStarted(_) =>
      case ToolFinished(_) =>
      case Wrote(_) =>
      case _ =>
    }
  }

  lemma {:induction false} TurnsRead(t: Trace)
    ensures var l := LedgerOf(t).steps;
            && l.turns == Count(t, IsTurnStart)
            && l.closed == Count(t, IsTurnEnd)
            && l.notices == Count(t, IsLeakNotice)
  {
    if t != [] {
      hide LedgerOf, Count, Read;
      var front, a := t[..|t| - 1], t[|t| - 1];
      assert t == Then(front, a);
      TurnsRead(front);
      CountLaw(front, a, IsTurnStart);
      CountLaw(front, a, IsTurnEnd);
      CountLaw(front, a, IsLeakNotice);
      Law();
      TurnStep(LedgerOf(front), a);
    }
  }

  lemma {:induction false} EndsRead(t: Trace)
    ensures var l := LedgerOf(t).ends;
            && l.openers == Count(t, IsOpener)
            && l.suspended == Count(t, IsSuspension)
            && l.finished + l.cancelled + l.failed == Count(t, IsTerminal)
  {
    if t != [] {
      hide LedgerOf, Count, ReadStep;
      var front, a := t[..|t| - 1], t[|t| - 1];
      assert t == Then(front, a);
      EndsRead(front);
      CountLaw(front, a, IsOpener);
      CountLaw(front, a, IsSuspension);
      CountLaw(front, a, IsTerminal);
      Law();
    }
  }

  lemma {:induction false} UsageRead(t: Trace)
    ensures LedgerOf(t).used == SumUsed(t)
  {
    hide ReadStep;
    if t != [] {
      UsageRead(t[..|t| - 1]);
    }
  }

  lemma {:induction false} ModelStepsRead(t: Trace)
    requires LedgerOf(t).steps.ok
    ensures var l := LedgerOf(t).steps;
            l.model == Count(t, IsModelStart) == Count(t, IsModelEnd) + (if l.modelOpen then 1 else 0)
  {
    if t != [] {
      hide LedgerOf, Count, Read;
      var front, a := t[..|t| - 1], t[|t| - 1];
      assert t == Then(front, a);
      Law();
      ModelStepStep(LedgerOf(front), a);
      ModelStepsRead(front);
      CountLaw(front, a, IsModelStart);
      CountLaw(front, a, IsModelEnd);
    }
  }

  lemma {:induction false} ToolStepsRead(t: Trace)
    requires LedgerOf(t).steps.ok
    ensures var l := LedgerOf(t).steps;
            l.tool == Count(t, IsToolStart) == Count(t, IsToolEnd) + (if l.toolOpen then 1 else 0)
  {
    if t != [] {
      hide LedgerOf, Count, Read;
      var front, a := t[..|t| - 1], t[|t| - 1];
      assert t == Then(front, a);
      Law();
      ToolStepStep(LedgerOf(front), a);
      ToolStepsRead(front);
      CountLaw(front, a, IsToolStart);
      CountLaw(front, a, IsToolEnd);
    }
  }

  /** What a monitor has once found wrong stays wrong, and the largest count never shrinks. */
  lemma {:induction false} OkBefore(t: Trace, n: nat)
    requires n <= |t|
    ensures LedgerOf(t).steps.ok ==> LedgerOf(t[..n]).steps.ok
    ensures LedgerOf(t).honest ==> LedgerOf(t[..n]).honest
    ensures LedgerOf(t).paced ==> LedgerOf(t[..n]).paced
    ensures LedgerOf(t[..n]).most <= LedgerOf(t).most
    decreases |t|
  {
    hide LedgerOf, Read;
    if n == |t| {
      assert t[..n] == t;
    } else {
      var front, a := t[..|t| - 1], t[|t| - 1];
      assert t == Then(front, a) && front[..n] == t[..n];
      OkBefore(front, n);
      Law();
      OkStep(LedgerOf(front), a);
    }
  }

  lemma OkStep(l: Ledger, a: Act)
    ensures Read(l, a).steps.ok ==> l.steps.ok
    ensures Read(l, a).honest ==> l.honest
    ensures Read(l, a).paced ==> l.paced
    ensures l.most <= Read(l, a).most
  {
  }

  /** Step indices of each kind are 1, 2, 3, ... with no gap and no repeat, and a step ends before the next begins. */
  lemma IndicesRead(t: Trace, i: nat)
    requires LedgerOf(t).steps.ok && i < |t|
    ensures t[i].ModelStarted? ==> t[i].index == Count(t[..i], IsModelStart) + 1 == Count(t[..i], IsModelEnd) + 1
    ensures t[i].ModelFinished? ==> t[i].index == Count(t[..i], IsModelStart) == Count(t[..i], IsModelEnd) + 1
    ensures t[i].ToolStarted? ==> t[i].index == Count(t[..i], IsToolStart) + 1 == Count(t[..i], IsToolEnd) + 1
    ensures t[i].ToolFinished? ==> t[i].index == Count(t[..i], IsToolStart) == Count(t[..i], IsToolEnd) + 1
  {
    hide Read, Count;
    OkBefore(t, i);
    OkBefore(t, i + 1);
    ModelStepsRead(t[..i]);
    ToolStepsRead(t[..i]);
    assert t[..i + 1][..i] == t[..i];
    IndexStep(LedgerOf(t[..i]), t[i]);
  }

  lemma IndexStep(l: Ledger, a: Act)
    requires Read(l, a).steps.ok
    ensures a.ModelStarted? ==> a.index == l.steps.model + 1 && !l.steps.modelOpen
    ensures a.ModelFinished? ==> a.index == l.steps.model && l.steps.modelOpen
    ensures a.ToolStarted? ==> a.index == l.steps.tool + 1 && !l.steps.toolOpen
    ensures a.ToolFinished? ==> a.index == l.steps.tool && l.steps.toolOpen
  {
  }

  lemma TotalsRead(t: Trace, i: nat)
    requires LedgerOf(t).honest && i < |t| && t[i].RunFinished?
    ensures t[i].total == SumUsed(t[..i])
  {
    OkBefore(t, i + 1);
    UsageRead(t[..i]);
    assert t[..i + 1][..i] == t[..i];
  }

  /** Back-to-back intervals from 0. */
  predicate Tiles(bs: seq<(nat, nat)>) {
    forall k :: 0 <= k < |bs| ==> bs[k].0 == if k == 0 then 0 else bs[k - 1].0 + bs[k - 1].1
  }

  /** Call `i` of batch `a` is announced under `index`, by the stream and by the dispatcher alike. */
  predicate Owns(bs: seq<(nat, nat)>, a: nat, i: nat, index: nat) {
    a < |bs| && i < bs[a].1 && bs[a].0 + i == index
  }

  function TileEnd(bs: seq<(nat, nat)>): nat {
    if bs == [] then 0 else bs[|bs| - 1].0 + bs[|bs| - 1].1
  }

  lemma BatchesLaw(t: Trace, a: Act)
    ensures BatchesOf(Then(t, a)) == if a.Dispatched? then BatchesOf(t) + [(a.first, a.size)] else BatchesOf(t)
  {
    assert (t + [a])[..|t|] == t;
  }

  /** A batch that starts where the last one ended keeps the tiling. */
  lemma TileStep(bs: seq<(nat, nat)>, l: Ledger, a: Act)
    requires Read(l, a).contiguous && l.contiguous && Tiles(bs) && TileEnd(bs) == l.next
    ensures var more := if a.Dispatched? then bs + [(a.first, a.size)] else bs;
            Tiles(more) && TileEnd(more) == Read(l, a).next
  {
  }

  lemma ContiguousBefore(l: Ledger, a: Act)
    ensures Read(l, a).contiguous ==> l.contiguous
  {
  }

  lemma {:induction false} BatchesRead(t: Trace)
    requires LedgerOf(t).contiguous
    ensures Tiles(BatchesOf(t)) && TileEnd(BatchesOf(t)) == LedgerOf(t).next
  {
    if t != [] {
      hide LedgerOf, BatchesOf, Tiles, TileEnd, Read;
      var front, a := t[..|t| - 1], t[|t| - 1];
      assert t == Then(front, a);
      Law();
      BatchesLaw(front, a);
      ContiguousBefore(LedgerOf(front), a);
      BatchesRead(front);
      TileStep(BatchesOf(front), LedgerOf(front), a);
    }
  }

  lemma {:induction false} TilesGrow(bs: seq<(nat, nat)>, a: nat, b: nat)
    requires Tiles(bs) && a < b < |bs|
    ensures bs[a].0 + bs[a].1 <= bs[b].0
    decreases b
  {
    if a < b - 1 {
      TilesGrow(bs, a, b - 1);
    }
  }

  /** No two calls of a run share an event index. */
  lemma IndexInjective(bs: seq<(nat, nat)>, a: nat, i: nat, b: nat, j: nat, index: nat)
    requires Tiles(bs) && Owns(bs, a, i, index) && Owns(bs, b, j, index)
    ensures a == b && i == j
  {
    if a < b {
      TilesGrow(bs, a, b);
    } else if b < a {
      TilesGrow(bs, b, a);
    }
  }

  /** Requests since a point with no later turn start: at most what the ledger counts for the turn. */
  lemma {:induction false} CallsRead(t: Trace, from: nat)
    requires from <= |t|
    requires forall i :: from <= i < |t| ==> !t[i].TurnStarted?
    ensures Count(t[from..], IsRequest) <= LedgerOf(t).calls
    ensures LedgerOf(t).calls <= LedgerOf(t).most
    decreases |t|
  {
    hide Read;
    if t != [] {
      var front := t[..|t| - 1];
      CallStep(LedgerOf(front), t[|t| - 1]);
      if from < |t| {
        CallsRead(front, from);
        assert t[from..][..|t[from..]| - 1] == front[from..];
      } else {
        CallsRead(front, |front|);
      }
    }
  }

  lemma CallStep(l: Ledger, a: Act)
    ensures var m := Read(l, a);
            && m.calls == (if a.TurnStarted? then 0 else l.calls + if IsRequest(a) then 1 else 0)
            && m.waits == (if a.TurnStarted? then 0 else l.waits + if IsRetry(a) then 1 else 0)
            && m.most >= l.most && (IsRequest(a) ==> m.most >= m.calls)
            && (m.paced ==> (a.Asked? ==> l.waits == l.calls)
                            && (a.Retrying? ==> a.attempt == l.calls == l.waits + 1 && a.seconds == Wait(a.attempt)))
  {
    hide ReadStep;
  }

  // ------------------------------------------------------------- theorems

  /** Wherever a logical run has got to, its turns are accounted for and its steps paired, but for a failed dispatch. */
  lemma Bracketing(cfg: Config, s: State, script: seq<World>, legs: seq<Leg>)
    requires AtTop(s)
    ensures var r := LogicalRun(cfg, s, script, legs);
            var t := r.s.trace;
            && Count(t, IsTurnStart) == Count(t, IsTurnEnd) + Count(t, IsLeakNotice)
            && Count(t, IsModelStart) == Count(t, IsModelEnd) == r.s.c.modelStep
            && Count(t, IsToolStart) == r.s.c.toolStep
            && Count(t, IsToolEnd) <= Count(t, IsToolStart) <= Count(t, IsToolEnd) + 1
            && (Count(t, IsToolEnd) != Count(t, IsToolStart) ==>
                  r.Ended? && r.outcome != Failure(Suspended) && LedgerOf(t).steps.reason == TurnCancelled)
            && (forall i :: 0 <= i < |t| && (t[i].ModelStarted? || t[i].ModelFinished?) ==>
                  t[i].index == Count(t[..i], IsModelEnd) + 1)
            && (forall i :: 0 <= i < |t| && (t[i].ToolStarted? || t[i].ToolFinished?) ==>
                  t[i].index == Count(t[..i], IsToolEnd) + 1)
  {
    hide LedgerOf, LogicalRun, Count;
    LogicalRunBooks(cfg, s, script, legs);
    var t := LogicalRun(cfg, s, script, legs).s.trace;
    TurnsRead(t);
    ModelStepsRead(t);
    ToolStepsRead(t);
    forall i | 0 <= i < |t|
      ensures t[i].ModelStarted? || t[i].ModelFinished? ==> t[i].index == Count(t[..i], IsModelEnd) + 1
      ensures t[i].ToolStarted? || t[i].ToolFinished? ==> t[i].index == Count(t[..i], IsToolEnd) + 1
    {
      IndicesRead(t, i);
    }
  }

  predicate IsOver(r: Run) {
    r.Ended? && r.outcome != Failure(Suspended)
  }

  /** The last thing that happened is the terminal event for that outcome; just before it a failure is logged. */
  predicate EndsAs(t: Trace, outcome: Outcome) {
    && t != []
    && var last := t[|t| - 1];
       match outcome
       case Success(_) => last.RunFinished?
       case Failure(e) =>
         && last == (if e.Cancelled? then RunCancelled else RunFailed(e))
         && |t| >= 2 && t[|t| - 2] == Wrote(InterruptedMark)
  }

  lemma EpilogueEnds(s: State, outcome: Outcome, w: World)
    ensures outcome != Failure(Suspended) ==> EndsAs(Epilogue(s, outcome, w).trace, outcome)
  {
    hide Flush, ContinueFor;
  }

  lemma {:induction false} RunEnds(cfg: Config, s: State, script: seq<World>)
    ensures var r := RunOver(cfg, s, script); IsOver(r) ==> EndsAs(r.s.trace, r.outcome)
    decreases |script|
  {
    hide Pass, Epilogue, EndsAs;
    if script != [] {
      match Pass(cfg, s, script[0]) {
        case Again(s1, _) => RunEnds(cfg, s1, script[1..]);
        case Leave(s1, outcome) => EpilogueEnds(s1, outcome, script[0]);
        case Drop(_) =>
      }
    }
  }

  lemma {:induction false} LogicalRunEnds(cfg: Config, s: State, script: seq<World>, legs: seq<Leg>)
    ensures var r := LogicalRun(cfg, s, script, legs); IsOver(r) ==> EndsAs(r.s.trace, r.outcome)
    decreases |legs|
  {
    hide RunOver, Resumed, EndsAs;
    RunEnds(cfg, s, script);
    var r := RunOver(cfg, s, script);
    if legs != [] && r.Ended? && r.outcome == Failure(Suspended) {
      LogicalRunEnds(cfg, Resumed(r.s, legs[0].entries, legs[0].waiting), legs[0].script, legs[1..]);
    }
  }

  /** One opener per segment, one suspension between segments, one terminal event at the end and none before. */
  lemma OneEnding(cfg: Config, s: State, script: seq<World>, legs: seq<Leg>)
    requires AtTop(s)
    ensures var r := LogicalRun(cfg, s, script, legs);
            var t := r.s.trace;
            var over := IsOver(r);
            && Count(t, IsTerminal) == (if over then 1 else 0)
            && (over ==> IsTerminal(t[|t| - 1]))
            && Count(t, IsOpener) == Count(t, IsSuspension) + (if r.Ended? && !over then 0 else 1)
            && (over ==> (t[|t| - 1].RunFinished? <==> r.outcome.Success?))
            && (over ==> (t[|t| - 1].RunCancelled? <==> r.outcome == Failure(Cancelled)))
            && (over ==> (t[|t| - 1].RunFailed? <==> r.outcome.Failure? && r.outcome != Failure(Cancelled)))
            && (over && t[|t| - 1].RunFailed? ==> r.outcome == Failure(t[|t| - 1].error))
            && (over && r.outcome.Failure? ==> |t| >= 2 && t[|t| - 2] == Wrote(InterruptedMark))
  {
    hide LedgerOf, LogicalRun, Count;
    LogicalRunBooks(cfg, s, script, legs);
    LogicalRunEnds(cfg, s, script, legs);
    EndsRead(LogicalRun(cfg, s, script, legs).s.trace);
  }

  /** Totals are the sum of all reported usage over all segments, and what `RunFinished` reports is that sum. */
  lemma TokensConserved(cfg: Config, s: State, script: seq<World>, legs: seq<Leg>)
    requires AtTop(s)
    ensures var r := LogicalRun(cfg, s, script, legs);
            var t := r.s.trace;
            && r.s.c.total == SumUsed(t)
            && (forall i :: 0 <= i < |t| && t[i].RunFinished? ==> t[i].total == SumUsed(t[..i]))
  {
    hide LedgerOf, LogicalRun, SumUsed;
    LogicalRunBooks(cfg, s, script, legs);
    var t := LogicalRun(cfg, s, script, legs).s.trace;
    UsageRead(t);
    forall i | 0 <= i < |t| && t[i].RunFinished? ensures t[i].total == SumUsed(t[..i]) {
      TotalsRead(t, i);
    }
  }

  /** Batches tile the index space over turns and suspensions, so no two calls share an index. */
  lemma BatchesDisjoint(cfg: Config, s: State, script: seq<World>, legs: seq<Leg>)
    requires AtTop(s)
    ensures var r := LogicalRun(cfg, s, script, legs);
            var bs := BatchesOf(r.s.trace);
            && Tiles(bs)
            && (LedgerOf(r.s.trace).steps.toolOpen || TileEnd(bs) == r.s.c.offset)
            && (forall a, i, b, j, index :: Owns(bs, a, i, index) && Owns(bs, b, j, index) ==> a == b && i == j)
  {
    hide LedgerOf, LogicalRun, BatchesOf, Tiles;
    LogicalRunBooks(cfg, s, script, legs);
    var t := LogicalRun(cfg, s, script, legs).s.trace;
    BatchesRead(t);
    var bs := BatchesOf(t);
    forall a, i, b, j, index | Owns(bs, a, i, index) && Owns(bs, b, j, index) ensures a == b && i == j {
      IndexInjective(bs, a, i, b, j, index);
    }
  }

  /** No turn sends more than 21 main requests. */
  lemma RequestsPerTurn(cfg: Config, s: State, script: seq<World>, legs: seq<Leg>, from: nat, to: nat)
    requires AtTop(s)
    requires var t := LogicalRun(cfg, s, script, legs).s.trace;
             from <= to <= |t| && forall i :: from <= i < to ==> !t[i].TurnStarted?
    ensures Count(LogicalRun(cfg, s, script, legs).s.trace[from..to], IsRequest) <= 21
  {
    hide LedgerOf, LogicalRun, Count;
    LogicalRunBooks(cfg, s, script, legs);
    var t := LogicalRun(cfg, s, script, legs).s.trace;
    OkBefore(t, to);
    CallsRead(t[..to], from);
    assert t[..to][from..] == t[from..to];
  }

  /** Requests, or announced retries, since the last turn started. */
  function Since(t: Trace, p: Act -> bool): nat {
    if t == [] || t[|t| - 1].TurnStarted? then 0 else Since(t[..|t| - 1], p) + if p(t[|t| - 1]) then 1 else 0
  }

  predicate IsRetry(a: Act) { a.Retrying? }

  lemma {:induction false} SinceRead(t: Trace)
    ensures LedgerOf(t).calls == Since(t, IsRequest) && LedgerOf(t).waits == Since(t, IsRetry)
  {
    hide Read;
    if t != [] {
      SinceRead(t[..|t| - 1]);
      CallStep(LedgerOf(t[..|t| - 1]), t[|t| - 1]);
    }
  }

  /**
   In every turn requests and announced retries alternate, a request first; the k-th retry is numbered k, comes right
   after the k-th request, and announces a wait of 2 to the power of k - 1 seconds, a minute at most.
   */
  lemma RetriesNumbered(cfg: Config, s: State, script: seq<World>, legs: seq<Leg>, i: nat)
    requires AtTop(s) && i < |LogicalRun(cfg, s, script, legs).s.trace|
    ensures var t := LogicalRun(cfg, s, script, legs).s.trace;
            && (t[i].Asked? ==> Since(t[..i], IsRetry) == Since(t[..i], IsRequest))
            && (t[i].Retrying? ==>
                  && t[i].attempt == Since(t[..i], IsRequest) == Since(t[..i], IsRetry) + 1
                  && t[i].seconds == if t[i].attempt <= 6 then Pow2(t[i].attempt - 1) else 60)
  {
    hide LogicalRun, Since, Read;
    LogicalRunBooks(cfg, s, script, legs);
    var t := LogicalRun(cfg, s, script, legs).s.trace;
    OkBefore(t, i + 1);
    SinceRead(t[..i]);
    assert t[..i + 1][..i] == t[..i];
    CallStep(LedgerOf(t[..i]), t[i]);
  }
}
