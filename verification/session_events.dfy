/**
 The event stream of one session and the desktop's subscription to it.

 Events are numbered from 1. A receiver reads them out of a short ring; when the
 ring has run past it, the subscription task fills the hole from a longer replay
 buffer, or, when even that has moved on, asks the surface to resync. `lastSeq`
 is where the task believes it stands; a replay overtakes the receiver, which
 then delivers the same events again and takes `lastSeq` back with it.
 */
module SessionEvents {
  import opened Options

  const BUFFER_CAPACITY: nat := 4096
  const RING_CAPACITY: nat := 1024

  type Event(!new, ==, 0)

  datatype Envelope = Envelope(seqNo: nat, event: Event)

  // ------------------------------------------------------------- the log

  /** Events number `from + 1` to `to` of all that were published. */
  function Envelopes(published: seq<Event>, from: nat, to: nat): (es: seq<Envelope>)
    requires from <= to <= |published|
    ensures |es| == to - from
    ensures forall i :: 0 <= i < |es| ==> es[i] == Envelope(from + i + 1, published[from + i])
  {
    seq(to - from, i requires 0 <= i < to - from => Envelope(from + i + 1, published[from + i]))
  }

  function Max(a: int, b: int): int {
    if a > b then a else b
  }

  /** How many events have left the replay buffer, and how many the ring. */
  function Forgotten(n: nat, capacity: nat): nat {
    if n > capacity then n - capacity else 0
  }

  /** What the replay buffer has after number `after`; nothing at all if it no longer reaches back that far. */
  function Backlog(published: seq<Event>, after: nat): Option<seq<Envelope>> {
    var n := |published|;
    var gone := Forgotten(n, BUFFER_CAPACITY);
    if n == 0 then Some([])
    else if gone <= after then Some(if after <= n then Envelopes(published, after, n) else [])
    else None
  }

  /** The single writer's log: numbering, replay buffer, and the hand-over to the ring, under one lock. */
  class EventLog {
    var nextSeq: nat
    var buffer: seq<Envelope>
    ghost var published: seq<Event>

    ghost predicate Valid()
      reads this
    {
      && nextSeq == |published| + 1
      && buffer == Envelopes(published, Forgotten(|published|, BUFFER_CAPACITY), |published|)
    }

    constructor ()
      ensures Valid() && published == []
    {
      nextSeq, buffer, published := 1, [], [];
    }

    method Emit(event: Event) returns (sent: Envelope)
      requires Valid()
      modifies this
      ensures Valid() && published == old(published) + [event] && sent == Envelope(|published|, event)
    {
      sent := Envelope(nextSeq, event);
      nextSeq := nextSeq + 1;
      if |buffer| >= BUFFER_CAPACITY {
        buffer := buffer[1..];
      }
      buffer := buffer + [sent];
      published := published + [event];
    }

    method EventsAfter(afterSeq: nat) returns (r: Option<seq<Envelope>>)
      requires Valid()
      ensures r == Backlog(published, afterSeq)
    {
      if buffer == [] {
        return Some([]);
      }
      if buffer[0].seqNo > afterSeq + 1 {
        return None;
      }
      ghost var gone := Forgotten(|published|, BUFFER_CAPACITY);
      var kept := Above(buffer, gone, afterSeq);
      assert gone <= afterSeq <= |published| ==> kept == Envelopes(published, afterSeq, |published|);
      r := Some(kept);
    }
  }

  /** Filters a numbered run of envelopes, the first of which has number `gone + 1`. */
  method Above(buffer: seq<Envelope>, ghost gone: nat, afterSeq: nat) returns (kept: seq<Envelope>)
    requires gone <= afterSeq && forall i :: 0 <= i < |buffer| ==> buffer[i].seqNo == gone + i + 1
    ensures kept == if afterSeq - gone <= |buffer| then buffer[afterSeq - gone..] else []
  {
    kept := [];
    for i := 0 to |buffer|
      invariant kept == if afterSeq - gone <= i then buffer[afterSeq - gone..i] else []
    {
      if buffer[i].seqNo > afterSeq {
        kept := kept + [buffer[i]];
      }
    }
  }

  // ------------------------------------------------------------- the subscription

  datatype Out = Got(env: Envelope) | Resync

  datatype Phase = Waiting | Lagged | Replaying(rest: seq<Envelope>) | Stopped

  type Number = n: nat | 1 <= n witness 1

  /** `position` is the number the receiver reads next. */
  datatype Sub = Sub(published: seq<Event>, position: Number, lastSeq: nat, phase: Phase, out: seq<Out>)

  /** Somebody publishes; the task takes its next step, its surface reachable or not; or it finds its flag raised. */
  datatype Act = Publish(event: Event) | Work(reachable: bool) | Cancel

  function Subscribed(published: seq<Event>): Sub {
    Sub(published, |published| + 1, 0, Waiting, [])
  }

  function Say(s: Sub, o: Out): Sub {
    s.(out := s.out + [o])
  }

  function Deliver(s: Sub, env: Envelope, reachable: bool): Sub {
    if reachable then Say(s.(lastSeq := env.seqNo), Got(env)) else s.(lastSeq := env.seqNo, phase := Stopped)
  }

  function Receive(s: Sub, reachable: bool): Sub {
    var n := |s.published|;
    if s.position > n then s
    else if s.position <= Forgotten(n, RING_CAPACITY) then
      s.(position := Forgotten(n, RING_CAPACITY) + 1, phase := Lagged)
    else Deliver(s.(position := s.position + 1), Envelope(s.position, s.published[s.position - 1]), reachable)
  }

  function CatchUp(s: Sub): Sub {
    match Backlog(s.published, s.lastSeq)
    case Some(missed) => s.(phase := Replaying(missed))
    case None => Say(s, Resync).(phase := Waiting)
  }

  function Next(s: Sub, a: Act): Sub {
    match a
    case Publish(event) => s.(published := s.published + [event])
    case Cancel => if s.phase.Waiting? then s.(phase := Stopped) else s
    case Work(reachable) =>
      match s.phase
      case Waiting => Receive(s, reachable)
      case Lagged => CatchUp(s)
      case Replaying(rest) =>
        if rest == [] then s.(phase := Waiting)
        else Deliver(s.(phase := Replaying(rest[1..])), rest[0], reachable)
      case Stopped => s
  }

  function After(s: Sub, acts: seq<Act>): Sub {
    if acts == [] then s else Next(After(s, acts[..|acts| - 1]), acts[|acts| - 1])
  }

  // ------------------------------------------------------------- the surface

  /** What a surface makes of the stream: it drops every number not above the highest it has seen. */
  datatype Seen = Seen(top: nat, excused: bool, steady: bool, kept: seq<Envelope>, resyncs: nat)

  function Read(v: Seen, o: Out): Seen {
    match o
    case Resync => v.(excused := true, resyncs := v.resyncs + 1)
    case Got(env) =>
      if env.seqNo <= v.top then v
      else Seen(env.seqNo, false, v.steady && (env.seqNo == v.top + 1 || v.excused), v.kept + [env], v.resyncs)
  }

  /** `top` starts at the number that was current when the subscription was made. */
  function SeenOf(start: nat, out: seq<Out>): Seen {
    if out == [] then Seen(start, false, true, [], 0) else Read(SeenOf(start, out[..|out| - 1]), out[|out| - 1])
  }

  lemma SayRead(start: nat, s: Sub, o: Out)
    ensures SeenOf(start, Say(s, o).out) == Read(SeenOf(start, s.out), o)
  {
    assert (s.out + [o])[..|s.out|] == s.out;
  }

  predicate IsEvent(published: seq<Event>, env: Envelope) {
    1 <= env.seqNo <= |published| && env.event == published[env.seqNo - 1]
  }

  predicate Good(start: nat, s: Sub) {
    var v := SeenOf(start, s.out);
    && start <= |s.published| && s.position <= |s.published| + 1
    && start <= v.top <= |s.published| && s.lastSeq <= |s.published|
    && (!s.phase.Stopped? ==> s.lastSeq <= v.top)
    && v.steady
    && (v.resyncs == 0 ==> v.kept == Envelopes(s.published, start, v.top))
    && (forall i :: 0 <= i < |v.kept| ==> IsEvent(s.published, v.kept[i]))
    && match s.phase
       case Waiting => s.position <= v.top + 1 || (v.excused && s.position <= |s.published|)
       case Lagged => s.position <= |s.published|
       case Replaying(rest) =>
         && s.lastSeq + |rest| <= |s.published| && s.position <= s.lastSeq + |rest| + 1
         && rest == Envelopes(s.published, s.lastSeq, s.lastSeq + |rest|)
       case Stopped => true
  }

  lemma EnvelopesGrow(published: seq<Event>, event: Event, from: nat, to: nat)
    requires from <= to <= |published|
    ensures Envelopes(published + [event], from, to) == Envelopes(published, from, to)
  {
  }

  lemma PublishGood(start: nat, s: Sub, event: Event)
    requires Good(start, s)
    ensures Good(start, Next(s, Publish(event)))
  {
    var v := SeenOf(start, s.out);
    if v.resyncs == 0 {
      EnvelopesGrow(s.published, event, start, v.top);
    }
    if s.phase.Replaying? {
      EnvelopesGrow(s.published, event, s.lastSeq, s.lastSeq + |s.phase.rest|);
    }
  }

  /** The next number in line, or one already seen, or one after a resync: the surface stays steady. */
  lemma ReadGot(published: seq<Event>, start: nat, v: Seen, env: Envelope)
    requires IsEvent(published, env) && v.steady && start <= v.top <= |published|
    requires v.resyncs == 0 ==> v.kept == Envelopes(published, start, v.top)
    requires forall i :: 0 <= i < |v.kept| ==> IsEvent(published, v.kept[i])
    requires env.seqNo <= v.top + 1 || v.excused
    requires v.excused ==> v.resyncs > 0
    ensures var k := Read(v, Got(env));
            && k.steady && k.top == Max(v.top, env.seqNo) && k.resyncs == v.resyncs
            && (k.resyncs == 0 ==> k.kept == Envelopes(published, start, k.top))
            && (forall i :: 0 <= i < |k.kept| ==> IsEvent(published, k.kept[i]))
  {
    if env.seqNo > v.top && v.resyncs == 0 {
      assert v.kept + [env] == Envelopes(published, start, v.top + 1);
    }
  }

  lemma {:induction false} ExcusedByResync(start: nat, out: seq<Out>)
    ensures SeenOf(start, out).excused ==> SeenOf(start, out).resyncs > 0
  {
    if out != [] {
      ExcusedByResync(start, out[..|out| - 1]);
    }
  }

  lemma ReceiveGood(start: nat, s: Sub, reachable: bool)
    requires Good(start, s) && s.phase.Waiting?
    ensures Good(start, Receive(s, reachable))
  {
    var n := |s.published|;
    if Forgotten(n, RING_CAPACITY) < s.position <= n && reachable {
      var env := Envelope(s.position, s.published[s.position - 1]);
      var v := SeenOf(start, s.out);
      ExcusedByResync(start, s.out);
      ReadGot(s.published, start, v, env);
      SayRead(start, s.(position := s.position + 1, lastSeq := env.seqNo), Got(env));
    }
  }

  lemma CatchUpGood(start: nat, s: Sub)
    requires Good(start, s) && s.phase.Lagged?
    ensures Good(start, CatchUp(s))
  {
    SayRead(start, s, Resync);
  }

  lemma RestShrinks(s: Sub)
    requires s.phase.Replaying? && s.phase.rest != [] && s.lastSeq + |s.phase.rest| <= |s.published|
    requires s.phase.rest == Envelopes(s.published, s.lastSeq, s.lastSeq + |s.phase.rest|)
    ensures var rest := s.phase.rest;
            && rest[0].seqNo == s.lastSeq + 1 && IsEvent(s.published, rest[0])
            && rest[1..] == Envelopes(s.published, s.lastSeq + 1, s.lastSeq + 1 + |rest[1..]|)
  {
  }

  lemma ReplayGood(start: nat, s: Sub, reachable: bool)
    requires Good(start, s) && s.phase.Replaying?
    ensures Good(start, Next(s, Work(reachable)))
  {
    hide Envelopes, IsEvent, SeenOf;
    var rest := s.phase.rest;
    if rest != [] {
      RestShrinks(s);
      if reachable {
        var v := SeenOf(start, s.out);
        ExcusedByResync(start, s.out);
        ReadGot(s.published, start, v, rest[0]);
        SayRead(start, s.(phase := Replaying(rest[1..]), lastSeq := rest[0].seqNo), Got(rest[0]));
      }
    }
  }

  lemma {:induction false} AlwaysGood(published: seq<Event>, acts: seq<Act>)
    ensures Good(|published|, After(Subscribed(published), acts))
  {
    if acts != [] {
      var front, a := acts[..|acts| - 1], acts[|acts| - 1];
      AlwaysGood(published, front);
      var s := After(Subscribed(published), front);
      match a {
        case Publish(event) => PublishGood(|published|, s, event);
        case Cancel =>
        case Work(reachable) =>
          match s.phase {
            case Waiting => ReceiveGood(|published|, s, reachable);
            case Lagged => CatchUpGood(|published|, s);
            case Replaying(_) => ReplayGood(|published|, s, reachable);
            case Stopped =>
          }
      }
    }
  }

  // ------------------------------------------------------------- the task

  lemma AfterSnoc(s: Sub, acts: seq<Act>, a: Act)
    ensures After(s, acts + [a]) == Next(After(s, acts), a)
  {
    assert (acts + [a])[..|acts|] == acts;
  }

  lemma AfterNothing(s: Sub)
    ensures After(s, []) == s
  {
  }

  predicate IsWork(acts: seq<Act>) {
    forall i :: 0 <= i < |acts| ==> acts[i].Work?
  }

  /** The subscription task. `phase` says where in its loop it is; the task itself has no such variable. */
  class SubscriptionTask {
    const log: EventLog
    var position: Number
    var lastSeq: nat
    var out: seq<Out>
    ghost var phase: Phase

    ghost function View(): Sub
      reads this, log
    {
      Sub(log.published, position, lastSeq, phase, out)
    }

    ghost predicate Valid()
      reads this, log
    {
      log.Valid() && !phase.Lagged?
    }

    constructor (log: EventLog)
      requires log.Valid()
      ensures Valid() && View() == Subscribed(log.published) && this.log == log
    {
      this.log := log;
      position, lastSeq, out, phase := log.nextSeq, 0, [], Waiting;
    }

    /** Sends one envelope; `false` when the surface is gone. */
    method Send(env: Envelope, reachable: bool) returns (sent: bool)
      modifies `lastSeq, `out, `phase
      ensures View() == Deliver(old(View()), env, reachable) && sent == reachable
    {
      lastSeq := env.seqNo;
      if reachable {
        out := out + [Got(env)];
      } else {
        phase := Stopped;
      }
      sent := reachable;
    }

    /** Once round the loop: the next event of the ring or, having lagged, a replay or a request to resync. */
    method Iterate(reachable: bool) returns (goOn: bool, ghost steps: seq<Act>)
      requires Valid() && phase.Waiting?
      modifies this
      ensures Valid() && View() == After(old(View()), steps) && IsWork(steps)
      ensures if goOn then phase.Waiting? else phase.Stopped?
    {
      ghost var s := View();
      var n := log.nextSeq - 1;
      var gone := Forgotten(n, RING_CAPACITY);
      steps := [];
      if position > n {
        return true, steps;
      }
      steps := [Work(reachable)];
      AfterOne(s, Work(reachable));
      if position > gone {
        var env := log.buffer[position - 1 - Forgotten(n, BUFFER_CAPACITY)];
        position := position + 1;
        goOn := Send(env, reachable);
        return;
      }
      position, phase := gone + 1, Lagged;
      ghost var s1 := View();
      assert s1 == After(s, steps);
      var missed := log.EventsAfter(lastSeq);
      AfterSnoc(s, steps, Work(reachable));
      steps := steps + [Work(reachable)];
      match missed {
        case None =>
          out, phase := out + [Resync], Waiting;
          goOn := true;
        case Some(envs) =>
          phase := Replaying(envs);
          ghost var more;
          goOn, more := Replay(envs, reachable);
          AfterConcat(s, steps, more);
          steps := steps + more;
      }
    }

    /** Delivers what was missed; `lastSeq` follows every envelope, sent or not. */
    method Replay(missed: seq<Envelope>, reachable: bool) returns (goOn: bool, ghost steps: seq<Act>)
      requires log.Valid() && phase == Replaying(missed)
      modifies this
      ensures View() == After(old(View()), steps) && IsWork(steps)
      ensures position == old(position) && if goOn then phase.Waiting? else phase.Stopped?
    {
      hide After, Envelopes, Backlog;
      ghost var s := View();
      AfterNothing(s);
      steps := [];
      var i := 0;
      while i < |missed|
        invariant 0 <= i <= |missed| && phase == Replaying(missed[i..]) && position == old(position)
        invariant View() == After(s, steps) && IsWork(steps)
      {
        AfterSnoc(s, steps, Work(reachable));
        steps := steps + [Work(reachable)];
        assert missed[i..][0] == missed[i] && missed[i..][1..] == missed[i + 1..];
        phase := Replaying(missed[i + 1..]);
        goOn := Send(missed[i], reachable);
        if !goOn {
          return;
        }
        i := i + 1;
      }
      AfterSnoc(s, steps, Work(reachable));
      steps := steps + [Work(reachable)];
      phase := Waiting;
      goOn := true;
    }
  }

  // ------------------------------------------------------------- what is promised

  function Top(start: nat, out: seq<Out>): (top: nat)
    ensures top >= start
  {
    if out == [] then start
    else
      var top, o := Top(start, out[..|out| - 1]), out[|out| - 1];
      if o.Got? && o.env.seqNo > top then o.env.seqNo else top
  }

  /** A resync was sent after the last new event. */
  ghost predicate Excused(start: nat, out: seq<Out>) {
    exists j :: 0 <= j < |out| && out[j].Resync? && Top(start, out[..j]) == Top(start, out)
  }

  lemma {:induction false} TopSeen(start: nat, out: seq<Out>)
    ensures SeenOf(start, out).top == Top(start, out)
    ensures SeenOf(start, out).resyncs == 0 <==> Resync !in out
  {
    if out != [] {
      TopSeen(start, out[..|out| - 1]);
      assert out == out[..|out| - 1] + [out[|out| - 1]];
    }
  }

  lemma ExcusedStays(start: nat, front: seq<Out>, o: Out)
    requires Excused(start, front) && Top(start, front + [o]) == Top(start, front)
    ensures Excused(start, front + [o])
  {
    hide Top;
    var j :| 0 <= j < |front| && front[j].Resync? && Top(start, front[..j]) == Top(start, front);
    assert (front + [o])[..j] == front[..j] && (front + [o])[j] == front[j];
  }

  lemma ResyncExcuses(start: nat, front: seq<Out>)
    ensures Excused(start, front + [Resync])
  {
    var out := front + [Resync];
    assert out[..|front|] == front && out[|front|] == Resync;
    assert Top(start, out) == Top(start, front);
  }

  lemma {:induction false} SeenMeans(start: nat, out: seq<Out>)
    ensures SeenOf(start, out).top == Top(start, out)
    ensures SeenOf(start, out).excused ==> Excused(start, out)
    ensures SeenOf(start, out).resyncs == 0 <==> Resync !in out
  {
    hide Top, Excused;
    TopSeen(start, out);
    if out != [] {
      var front, o := out[..|out| - 1], out[|out| - 1];
      assert out == front + [o];
      SeenMeans(start, front);
      if o.Resync? {
        ResyncExcuses(start, front);
      } else if SeenOf(start, out).excused {
        ExcusedStays(start, front, o);
      }
    }
  }

  lemma {:induction false} SteadyBefore(start: nat, out: seq<Out>, i: nat)
    requires i <= |out| && SeenOf(start, out).steady
    ensures SeenOf(start, out[..i]).steady
    decreases |out|
  {
    if i == |out| {
      assert out[..i] == out;
    } else {
      assert out[..|out| - 1][..i] == out[..i];
      SteadyBefore(start, out[..|out| - 1], i);
    }
  }

  /** A new event is the next one in line, or the surface has been told since the last new one that some are missing. */
  lemma RisesByOne(start: nat, out: seq<Out>, i: nat)
    requires i < |out| && SeenOf(start, out).steady && out[i].Got?
    ensures out[i].env.seqNo <= Top(start, out[..i]) + 1 || Excused(start, out[..i])
  {
    SteadyBefore(start, out, i + 1);
    assert out[..i + 1][..i] == out[..i];
    SeenMeans(start, out[..i]);
  }

  /**
   For every interleaving of publishing, receiving, lagging and replaying: new events come one by one in order
   unless a resync says otherwise; without a resync, what a surface keeps after dropping repeats is exactly what
   was published since it subscribed; and once the task has nothing left to do, that reaches to the last event.
   */
  lemma GapFree(published: seq<Event>, acts: seq<Act>)
    ensures var start := |published|;
            var s := After(Subscribed(published), acts);
            var v := SeenOf(start, s.out);
            && (forall i :: 0 <= i < |s.out| && s.out[i].Got? ==>
                  s.out[i].env.seqNo <= Top(start, s.out[..i]) + 1 || Excused(start, s.out[..i]))
            && start <= v.top <= |s.published|
            && (Resync !in s.out ==> v.kept == Envelopes(s.published, start, v.top))
            && (s.phase.Waiting? && s.position > |s.published| ==> v.top == |s.published|)
  {
    AlwaysGood(published, acts);
    var start := |published|;
    var s := After(Subscribed(published), acts);
    SeenMeans(start, s.out);
    forall i | 0 <= i < |s.out| && s.out[i].Got?
      ensures s.out[i].env.seqNo <= Top(start, s.out[..i]) + 1 || Excused(start, s.out[..i])
    {
      RisesByOne(start, s.out, i);
    }
  }

  /** The task asks for a resync exactly when the event after `lastSeq` has left the replay buffer. */
  lemma ResyncWhen(s: Sub)
    requires s.phase.Lagged?
    ensures CatchUp(s).out == s.out + [Resync] <==> s.lastSeq < Forgotten(|s.published|, BUFFER_CAPACITY)
    ensures CatchUp(s).out == s.out || CatchUp(s).out == s.out + [Resync]
  {
    assert |s.out + [Resync]| != |s.out|;
  }

  predicate InBuffer(published: seq<Event>, k: nat) {
    Forgotten(|published|, BUFFER_CAPACITY) < k <= |published|
  }

  /** The task asks for a resync although every event the surface lacks is still in the replay buffer. */
  predicate Needless(start: nat, s: Sub) {
    && s.phase.Lagged? && CatchUp(s).out == s.out + [Resync]
    && forall k :: SeenOf(start, s.out).top < k <= |s.published| ==> InBuffer(s.published, k)
  }

  /**
   In every state a subscription can lag in: the resync is needless exactly when `lastSeq` has fallen out of the
   buffer's reach and the highest number seen has not. It never is when the two are the same.
   */
  lemma NeedlessWhen(published: seq<Event>, acts: seq<Act>)
    requires After(Subscribed(published), acts).phase.Lagged?
    ensures var s := After(Subscribed(published), acts);
            var top, gone := SeenOf(|published|, s.out).top, Forgotten(|s.published|, BUFFER_CAPACITY);
            && (Needless(|published|, s) <==> s.lastSeq < gone <= top)
            && s.lastSeq <= top
            && (s.lastSeq == top ==> !Needless(|published|, s))
  {
    AlwaysGood(published, acts);
    var s := After(Subscribed(published), acts);
    hide SeenOf, After, Envelopes;
    ResyncWhen(s);
    var top, gone := SeenOf(|published|, s.out).top, Forgotten(|s.published|, BUFFER_CAPACITY);
    if s.lastSeq < gone && top < gone {
      assert !InBuffer(s.published, top + 1);
    }
  }

  // ------------------------------------------------------------- the first lag, and the end

  /** As long as the surface has been sent nothing, the task stands at 0, wherever the numbers were at the start. */
  lemma {:induction false} UnheardIsZero(published: seq<Event>, acts: seq<Act>)
    ensures var s := After(Subscribed(published), acts); s.out == [] && !s.phase.Stopped? ==> s.lastSeq == 0
  {
    hide Envelopes;
    if acts != [] {
      UnheardIsZero(published, acts[..|acts| - 1]);
    }
  }

  /**
   So a subscription that lags before its first event is replayed the session from its first event on, those from
   before the subscription too; or it is asked to resync exactly when the first event has left the buffer.
   */
  lemma FirstLagReplaysAll(published: seq<Event>, acts: seq<Act>)
    requires var s := After(Subscribed(published), acts); s.phase.Lagged? && s.out == []
    ensures var s := After(Subscribed(published), acts);
            var n, s1 := |s.published|, Next(s, Work(true));
            if n > 4096 then s1.out == [Resync] && s1.phase == Waiting
            else s1.out == [] && s1.phase == Replaying(Envelopes(s.published, 0, n))
  {
    hide After;
    UnheardIsZero(published, acts);
    var s := After(Subscribed(published), acts);
    ResyncWhen(s);
    assert [] + [Resync] == [Resync];
  }

  lemma {:induction false} StoppedIsSilent(s: Sub, acts: seq<Act>)
    requires s.phase.Stopped?
    ensures After(s, acts).phase.Stopped? && After(s, acts).out == s.out
  {
    if acts != [] {
      StoppedIsSilent(s, acts[..|acts| - 1]);
    }
  }

  /** A cancel found at the top of the task's loop is the end of it. */
  lemma CancelSilences(s: Sub, more: seq<Act>)
    requires s.phase.Waiting?
    ensures After(s, [Cancel] + more).phase.Stopped? && After(s, [Cancel] + more).out == s.out
  {
    hide After;
    AfterConcat(s, [Cancel], more);
    AfterOne(s, Cancel);
    StoppedIsSilent(Next(s, Cancel), more);
  }

  /** So is the first event that cannot be sent, received or replayed. */
  lemma FailureSilences(s: Sub, more: seq<Act>)
    requires exists env :: Next(s, Work(true)).out == s.out + [Got(env)]
    ensures After(s, [Work(false)] + more).phase.Stopped? && After(s, [Work(false)] + more).out == s.out
  {
    hide After;
    var env :| Next(s, Work(true)).out == s.out + [Got(env)];
    assert (s.out + [Got(env)])[|s.out|] == Got(env);
    assert (s.out + [Resync])[|s.out|] == Resync;
    assert |s.out + [Got(env)]| > |s.out|;
    AfterConcat(s, [Work(false)], more);
    AfterOne(s, Work(false));
    StoppedIsSilent(Next(s, Work(false)), more);
  }

  // ------------------------------------------------------------- a needless resync

  function Burst(event: Event, n: nat): seq<Act> {
    seq(n, _ => Publish(event))
  }

  function Works(n: nat): seq<Act> {
    seq(n, _ => Work(true))
  }

  lemma {:induction false} AfterConcat(s: Sub, a: seq<Act>, b: seq<Act>)
    ensures After(s, a + b) == After(After(s, a), b)
    decreases |b|
  {
    if b == [] {
      assert a + b == a;
    } else {
      assert (a + b)[..|a + b| - 1] == a + b[..|b| - 1];
      AfterConcat(s, a, b[..|b| - 1]);
    }
  }

  lemma AfterOne(s: Sub, a: Act)
    ensures After(s, [a]) == Next(s, a)
  {
    assert [a][..0] == [];
  }

  lemma {:induction false} AfterBurst(s: Sub, event: Event, n: nat)
    ensures After(s, Burst(event, n)) == s.(published := s.published + seq(n, _ => event))
    decreases n
  {
    if n == 0 {
      assert s.published + seq(0, _ => event) == s.published;
    } else {
      assert Burst(event, n)[..n - 1] == Burst(event, n - 1);
      AfterBurst(s, event, n - 1);
      assert s.published + seq(n - 1, _ => event) + [event] == s.published + seq(n, _ => event);
    }
  }

  /** A replay that nobody disturbs is delivered in full. */
  lemma {:induction false} AfterReplay(start: nat, s: Sub, n: nat)
    requires Good(start, s) && s.phase.Replaying? && n <= |s.phase.rest|
    ensures var s1 := After(s, Works(n));
            && Good(start, s1) && s1.phase == Replaying(s.phase.rest[n..]) && s1.lastSeq == s.lastSeq + n
            && s1.published == s.published && s1.position == s.position
    decreases n
  {
    if n > 0 {
      assert Works(n)[..n - 1] == Works(n - 1);
      AfterReplay(start, s, n - 1);
      var s1 := After(s, Works(n - 1));
      ReplayGood(start, s1, true);
      assert s.phase.rest[n - 1..][1..] == s.phase.rest[n..];
      assert s1.phase.rest[0] == Envelope(s1.lastSeq + 1, s1.published[s1.lastSeq]);
    }
  }

  lemma FirstLag(event: Event)
    ensures var s := After(Subscribed([]), Burst(event, 1025) + [Work(true)]);
            s.phase == Lagged && s.position == 2 && s.lastSeq == 0 && |s.published| == 1025
  {
    AfterBurst(Subscribed([]), event, 1025);
    AfterSnoc(Subscribed([]), Burst(event, 1025), Work(true));
  }

  /** From a fresh subscription: two lags, a long replay between them, and a third lag. */
  lemma NeedlessResync(event: Event)
    ensures exists acts :: Needless(0, After(Subscribed([]), acts))
  {
    hide Good, SeenOf;
    var s0, a := Subscribed([]), Burst(event, 1025) + [Work(true)];
    FirstLag(event);
    var b := a + Burst(event, 3071);
    AfterConcat(s0, a, Burst(event, 3071));
    AfterBurst(After(s0, a), event, 3071);
    var c := b + [Work(true)];
    AfterSnoc(s0, b, Work(true));
    var s := After(s0, c);
    assert s.phase == Replaying(Envelopes(s.published, 0, 4096));
    AlwaysGood([], c);
    AfterReplay(0, s, 4096);
    AfterConcat(s0, c, Works(4096));
    ThirdLag(c + Works(4096), event);
  }

  /** After the replay the receiver lags again, has nothing to replay, and goes back to where the ring begins. */
  lemma SecondLag(s: Sub, e: seq<Act>)
    requires s.phase == Replaying([]) && s.lastSeq == 4096 && |s.published| == 4096 && s.position == 2
    requires e == [Work(true), Work(true), Work(true), Work(true), Work(true)]
    ensures var t := After(s, e);
            && t.phase == Waiting && t.lastSeq == 3073 && t.position == 3074 && t.published == s.published
            && t.out == s.out + [Got(Envelope(3073, s.published[3072]))]
  {
    AfterNothing(s);
    AfterSnoc(s, [], Work(true));
    AfterSnoc(s, [Work(true)], Work(true));
    AfterSnoc(s, [Work(true), Work(true)], Work(true));
    AfterSnoc(s, [Work(true), Work(true), Work(true)], Work(true));
    AfterSnoc(s, [Work(true), Work(true), Work(true), Work(true)], Work(true));
    hide After;
    var s1 := Next(s, Work(true));
    var s2 := Next(s1, Work(true));
    assert s2.phase == Lagged && s2.position == 3073;
    var s3 := Next(s2, Work(true));
    assert s3.phase == Replaying([]);
    var s4 := Next(s3, Work(true));
    var s5 := Next(s4, Work(true));
    assert [] + [Work(true)] == [Work(true)];
    assert [Work(true)] + [Work(true)] == [Work(true), Work(true)];
    assert [Work(true), Work(true)] + [Work(true)] == [Work(true), Work(true), Work(true)];
    assert [Work(true), Work(true), Work(true)] + [Work(true)] == [Work(true), Work(true), Work(true), Work(true)];
    assert [Work(true), Work(true), Work(true), Work(true)] + [Work(true)] == e;
    assert After(s, e) == s5;
  }

  lemma ThirdLag(a: seq<Act>, event: Event)
    requires var s := After(Subscribed([]), a);
             s.phase == Replaying([]) && s.lastSeq == 4096 && |s.published| == 4096 && s.position == 2
    ensures exists acts :: Needless(0, After(Subscribed([]), acts))
  {
    hide Good, SeenOf, After;
    var s0 := Subscribed([]);
    var s := After(s0, a);
    var e := [Work(true), Work(true), Work(true), Work(true), Work(true)];
    SecondLag(s, e);
    AfterConcat(s0, a, e);
    var t, b := After(s, e), a + e + Burst(event, 3074);
    AfterConcat(s0, a + e, Burst(event, 3074));
    AfterBurst(t, event, 3074);
    AfterSnoc(s0, b, Work(true));
    var u := After(s0, b + [Work(true)]);
    assert u.phase == Lagged && u.lastSeq == 3073 && |u.published| == 7170 && u.out == t.out;
    AlwaysGood([], a);
    TopOf(0, s);
    TopNeverFalls(0, s.out, Got(Envelope(3073, s.published[3072])));
    NeedlessWhen([], b + [Work(true)]);
    assert Needless(0, u);
  }

  lemma TopOf(start: nat, s: Sub)
    requires Good(start, s) && !s.phase.Stopped?
    ensures s.lastSeq <= SeenOf(start, s.out).top
  {
  }

  lemma TopNeverFalls(start: nat, out: seq<Out>, o: Out)
    ensures SeenOf(start, out + [o]).top >= SeenOf(start, out).top
  {
    assert (out + [o])[..|out|] == out;
  }
}
