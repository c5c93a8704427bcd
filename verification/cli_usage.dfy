/** The command line's own token count: it adds up what it overhears and starts again whenever a run finishes. */
module CliUsage {
  import opened Options
  import opened Retry
  import opened AgentLoop
  import Ledgers
  import RunEvents

  /** Three of the four figures a run reports. */
  datatype Figures = Figures(input: nat, output: nat, cacheRead: nat) {
    function Plus(f: Figures): Figures {
      Figures(input + f.input, output + f.output, cacheRead + f.cacheRead)
    }
  }

  const NONE_YET := Figures(0, 0, 0)

  function Of(usage: Usage): Figures {
    Figures(usage.input, usage.output, usage.cacheRead)
  }

  datatype Wire = UsageEvent(usage: Usage) | FinishedEvent | OtherEvent

  /** The accumulator after a stream, started at `f`. */
  function Held(f: Figures, es: seq<Wire>): Figures {
    if es == [] then f
    else
      var before := Held(f, es[..|es| - 1]);
      match es[|es| - 1]
      case UsageEvent(usage) => before.Plus(Of(usage))
      case FinishedEvent => NONE_YET
      case OtherEvent => before
  }

  /** What has been reported, run by run. */
  function Reports(f: Figures, es: seq<Wire>): seq<Figures> {
    if es == [] then []
    else
      Reports(f, es[..|es| - 1])
      + if es[|es| - 1].FinishedEvent? then [Held(f, es[..|es| - 1])] else []
  }

  class UsageTotals {
    var inputTokens: nat
    var outputTokens: nat
    var cacheReadTokens: nat

    ghost function View(): Figures
      reads this
    {
      Figures(inputTokens, outputTokens, cacheReadTokens)
    }

    constructor ()
      ensures View() == NONE_YET
    {
      inputTokens, outputTokens, cacheReadTokens := 0, 0, 0;
    }

    method TranslateWireEvent(e: Wire) returns (report: Option<Figures>)
      modifies this
      ensures View() == Held(old(View()), [e])
      ensures report == if e.FinishedEvent? then Some(old(View())) else None
    {
      assert [e][..0] == [];
      match e {
        case FinishedEvent =>
          report := Some(Figures(inputTokens, outputTokens, cacheReadTokens));
          inputTokens, outputTokens, cacheReadTokens := 0, 0, 0;
        case UsageEvent(usage) =>
          inputTokens, outputTokens := inputTokens + usage.input, outputTokens + usage.output;
          cacheReadTokens := cacheReadTokens + usage.cacheRead;
          report := None;
        case OtherEvent =>
          report := None;
      }
    }

    /** The pump: every event of the session, in order. */
    method Pump(es: seq<Wire>) returns (reports: seq<Figures>)
      modifies this
      ensures View() == Held(old(View()), es) && reports == Reports(old(View()), es)
    {
      reports := [];
      for i := 0 to |es|
        invariant View() == Held(old(View()), es[..i]) && reports == Reports(old(View()), es[..i])
      {
        assert es[..i + 1][..i] == es[..i];
        assert [es[i]][..0] == [];
        var report := TranslateWireEvent(es[i]);
        if report.Some? {
          reports := reports + [report.value];
        }
      }
      assert es[..|es|] == es;
    }
  }

  // ------------------------------------------------------------- conservation

  // Sums are field by field.

  function SumSeen(es: seq<Wire>): Figures {
    if es == [] then NONE_YET
    else
      var before, last := SumSeen(es[..|es| - 1]), es[|es| - 1];
      if last.UsageEvent? then
        Figures(before.input + last.usage.input, before.output + last.usage.output,
                before.cacheRead + last.usage.cacheRead)
      else before
  }

  function SumReported(reports: seq<Figures>): Figures {
    if reports == [] then NONE_YET
    else
      var before, last := SumReported(reports[..|reports| - 1]), reports[|reports| - 1];
      Figures(before.input + last.input, before.output + last.output, before.cacheRead + last.cacheRead)
  }

  /**
   On any stream, for each of the three figures: what was held at the start plus all usage seen is what was reported
   plus what is still held.
   */
  lemma {:induction false} NothingLost(f: Figures, es: seq<Wire>)
    ensures var reported, held, seen := SumReported(Reports(f, es)), Held(f, es), SumSeen(es);
            && reported.input + held.input == f.input + seen.input
            && reported.output + held.output == f.output + seen.output
            && reported.cacheRead + held.cacheRead == f.cacheRead + seen.cacheRead
  {
    if es != [] {
      var front, last := es[..|es| - 1], es[|es| - 1];
      NothingLost(f, front);
      var reports := Reports(f, front);
      if last.FinishedEvent? {
        assert (reports + [Held(f, front)])[..|reports|] == reports;
      } else {
        assert reports + [] == reports;
      }
    }
  }

  /** A report covers exactly what was seen since the one before it. */
  lemma {:induction false} HeldSinceFinish(f: Figures, es: seq<Wire>)
    requires FinishedEvent !in es
    ensures Held(f, es) == f.Plus(SumSeen(es)) && Reports(f, es) == []
  {
    if es != [] {
      assert forall e :: e in es[..|es| - 1] ==> e in es;
      HeldSinceFinish(f, es[..|es| - 1]);
    }
  }

  // ------------------------------------------------------------- together with the run

  /** One session stream: a run's own acts, and usage of others (a subagent, say) in between. */
  datatype Source = Mine(a: Act) | Others(usage: Usage)

  function WireOf(s: Source): Wire {
    match s
    case Mine(Used(usage)) => UsageEvent(usage)
    case Mine(RunFinished(_)) => FinishedEvent
    case Mine(_) => OtherEvent
    case Others(usage) => UsageEvent(usage)
  }

  function Stream(ss: seq<Source>): (es: seq<Wire>)
    ensures |es| == |ss| && forall i :: 0 <= i < |es| ==> es[i] == WireOf(ss[i])
  {
    seq(|ss|, i requires 0 <= i < |ss| => WireOf(ss[i]))
  }

  function Own(ss: seq<Source>): Trace {
    if ss == [] then []
    else Own(ss[..|ss| - 1]) + if ss[|ss| - 1].Mine? then [ss[|ss| - 1].a] else []
  }

  function SumOthers(ss: seq<Source>): Figures {
    if ss == [] then NONE_YET
    else
      var before, last := SumOthers(ss[..|ss| - 1]), ss[|ss| - 1];
      if last.Others? then
        Figures(before.input + last.usage.input, before.output + last.usage.output,
                before.cacheRead + last.usage.cacheRead)
      else before
  }

  lemma StreamSnoc(front: seq<Source>, last: Source)
    ensures Stream(front + [last]) == Stream(front) + [WireOf(last)]
    ensures SumSeen(Stream(front + [last])) ==
            if WireOf(last).UsageEvent? then SumSeen(Stream(front)).Plus(Of(WireOf(last).usage))
            else SumSeen(Stream(front))
  {
    assert (Stream(front) + [WireOf(last)])[..|front|] == Stream(front);
  }

  lemma OwnSnoc(front: seq<Source>, last: Source)
    ensures Own(front + [last]) == if last.Mine? then Own(front) + [last.a] else Own(front)
    ensures RunEvents.SumUsed(Own(front + [last])) ==
            if last.Mine? && last.a.Used? then RunEvents.SumUsed(Own(front)).Plus(last.a.usage)
            else RunEvents.SumUsed(Own(front))
    ensures SumOthers(front + [last]) ==
            if last.Others? then SumOthers(front).Plus(Of(last.usage)) else SumOthers(front)
  {
    assert (front + [last])[..|front|] == front;
    if last.Mine? {
      assert (Own(front) + [last.a])[..|Own(front)|] == Own(front);
    }
  }

  lemma EmptyStream()
    ensures SumSeen(Stream([])) == Of(RunEvents.SumUsed(Own([]))).Plus(SumOthers([]))
  {
    assert Stream([]) == [];
    assert SumSeen([]) == NONE_YET && SumOthers([]) == NONE_YET && RunEvents.SumUsed([]) == NO_USAGE;
  }

  lemma OneMore(x: Usage, y: Usage, f: Figures)
    ensures Of(x.Plus(y)).Plus(f) == Of(x).Plus(f).Plus(Of(y))
    ensures Of(x).Plus(f.Plus(Of(y))) == Of(x).Plus(f).Plus(Of(y))
  {
  }

  lemma {:induction false} StreamSums(ss: seq<Source>)
    ensures SumSeen(Stream(ss)) == Of(RunEvents.SumUsed(Own(ss))).Plus(SumOthers(ss))
  {
    hide SumSeen, Stream, Own, SumOthers, RunEvents.SumUsed, Of;
    if ss == [] {
      EmptyStream();
    } else {
      var front, last := ss[..|ss| - 1], ss[|ss| - 1];
      assert ss == front + [last];
      StreamSums(front);
      StreamSnoc(front, last);
      OwnSnoc(front, last);
      match last {
        case Mine(Used(usage)) => OneMore(RunEvents.SumUsed(Own(front)), usage, SumOthers(front));
        case Mine(_) =>
        case Others(usage) => OneMore(RunEvents.SumUsed(Own(front)), usage, SumOthers(front));
      }
    }
  }

  lemma {:induction false} OwnPrefix(ss: seq<Source>, i: nat)
    requires i < |ss| && ss[i].Mine?
    ensures var t, k := Own(ss), |Own(ss[..i])|; k < |t| && t[..k] == Own(ss[..i]) && t[k] == ss[i].a
    decreases |ss|
  {
    if i == |ss| - 1 {
    } else {
      assert ss[..|ss| - 1][..i] == ss[..i];
      OwnPrefix(ss[..|ss| - 1], i);
      var t, front := Own(ss), Own(ss[..|ss| - 1]);
      assert front <= t;
    }
  }

  /**
   The figure the command line gives for a run is the run's own total, plus what the accumulator held when the run
   began, plus what others used meanwhile. It is the run's total exactly when the other two are nothing.
   */
  lemma FigureOfRun(
    held: Figures, ss: seq<Source>, i: nat, cfg: Config, s: State, script: seq<World>, legs: seq<Leg>)
    requires Ledgers.AtTop(s) && Own(ss) == LogicalRun(cfg, s, script, legs).s.trace
    requires i < |ss| && ss[i].Mine? && ss[i].a.RunFinished?
    requires forall k :: 0 <= k < i ==> !(ss[k].Mine? && ss[k].a.RunFinished?)
    ensures var figure := Held(held, Stream(ss[..i]));
            && Reports(held, Stream(ss[..i + 1])) == [figure]
            && figure.input == ss[i].a.total.input + held.input + SumOthers(ss[..i]).input
            && figure.output == ss[i].a.total.output + held.output + SumOthers(ss[..i]).output
            && figure.cacheRead == ss[i].a.total.cacheRead + held.cacheRead + SumOthers(ss[..i]).cacheRead
            && (figure == Of(ss[i].a.total) <==> held == NONE_YET && SumOthers(ss[..i]) == NONE_YET)
  {
    hide LogicalRun, Ledgers.AtTop;
    var before := Stream(ss[..i]);
    assert FinishedEvent !in before;
    HeldSinceFinish(held, before);
    StreamSums(ss[..i]);
    OwnPrefix(ss, i);
    RunEvents.TokensConserved(cfg, s, script, legs);
    assert Stream(ss[..i + 1])[..i] == before;
  }

  /** A run that ends without finishing leaves its usage behind for the next one's figure. */
  lemma UnfinishedIsCarried(held: Figures, ss: seq<Source>)
    requires forall k :: 0 <= k < |ss| ==> !(ss[k].Mine? && ss[k].a.RunFinished?)
    ensures var next, own, others := Held(held, Stream(ss)), RunEvents.SumUsed(Own(ss)), SumOthers(ss);
            && next.input == held.input + own.input + others.input
            && next.output == held.output + own.output + others.output
            && next.cacheRead == held.cacheRead + own.cacheRead + others.cacheRead
    ensures Reports(held, Stream(ss)) == []
  {
    assert FinishedEvent !in Stream(ss);
    HeldSinceFinish(held, Stream(ss));
    StreamSums(ss);
  }
}
