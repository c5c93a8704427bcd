/**
 Requests forwarded to a chat channel and settled by whichever side answers first.

 A forward leaves a marker in the session, `Pending` until it is settled. The
 phone's reply and the desktop's own decision race for the table entry; the one
 that takes it writes the marker, later and unprotected. The step system lets any
 of these happen between any others.
 */
module ChannelForward {
  import opened Options

  type RequestId(!new, ==)
  type SessionId(!new, ==)
  type MarkerId(!new, ==)

  datatype Status = Pending | Resolved(outcome: string)

  /** One forward: the resolver given to the channel remembers its own marker. */
  datatype Forward = Forward(request: RequestId, session: SessionId, marker: MarkerId)

  /** An entry that has been taken and whose marker is still to be written. */
  datatype Task = Task(marker: MarkerId, outcome: string)

  const LOCALLY := "handled on the desktop"

  /** `byMarker`, `first` and `writes` only record: whose a marker is, who took it first, how often it was written. */
  datatype Race = Race(
    byMarker: map<MarkerId, Forward>,
    appended: set<Forward>,
    handed: set<Forward>,
    inflight: map<RequestId, (SessionId, MarkerId)>,
    taken: multiset<Task>,
    markers: map<MarkerId, Status>,
    first: map<MarkerId, string>,
    writes: multiset<MarkerId>)

  const NO_FORWARDS := Race(map[], {}, {}, map[], multiset{}, map[], map[], multiset{})

  /** Forwarding appends the marker and only then tracks it; settling takes the entry and only then writes. */
  datatype Step =
    | Append(f: Forward)
    | Track(f: Forward)
    | Reply(f: Forward, outcome: string)
    | Local(request: RequestId)
    | Write(task: Task)

  /** A marker that is gone is not an error. */
  function Resolve(markers: map<MarkerId, Status>, m: MarkerId, outcome: string): map<MarkerId, Status> {
    if m in markers then markers[m := Resolved(outcome)] else markers
  }

  function Take(s: Race, request: RequestId, task: Task): Race {
    s.(inflight := s.inflight - {request}, taken := s.taken + multiset{task},
       first := if task.marker in s.first then s.first else s.first[task.marker := task.outcome])
  }

  function Next(s: Race, step: Step): Race {
    match step
    case Append(f) =>
      if f.marker in s.markers then s
      else s.(byMarker := s.byMarker[f.marker := f], appended := s.appended + {f},
              markers := s.markers[f.marker := Pending])
    case Track(f) =>
      if f !in s.appended then s
      else s.(appended := s.appended - {f}, handed := s.handed + {f},
              inflight := s.inflight[f.request := (f.session, f.marker)])
    case Reply(f, outcome) =>
      if f in s.handed && f.request in s.inflight then Take(s, f.request, Task(f.marker, outcome)) else s
    case Local(request) =>
      if request in s.inflight then Take(s, request, Task(s.inflight[request].1, LOCALLY)) else s
    case Write(task) =>
      if task !in s.taken then s
      else s.(taken := s.taken - multiset{task}, markers := Resolve(s.markers, task.marker, task.outcome),
              writes := s.writes + multiset{task.marker})
  }

  function After(s: Race, steps: seq<Step>): Race {
    if steps == [] then s else Next(After(s, steps[..|steps| - 1]), steps[|steps| - 1])
  }

  // ------------------------------------------------------------- the four phases of a forward

  ghost predicate NoTask(s: Race, m: MarkerId) {
    forall t :: t in s.taken ==> t.marker != m
  }

  predicate Untaken(s: Race, f: Forward) {
    f.marker !in s.first && s.writes[f.marker] == 0 && f.marker in s.markers && s.markers[f.marker] == Pending
  }

  /** The table's entry for the request is this forward's own. */
  predicate InTable(s: Race, f: Forward) {
    f.request in s.inflight && s.inflight[f.request].1 == f.marker
  }

  ghost predicate Appended(s: Race, f: Forward) {
    f in s.appended && f !in s.handed && !InTable(s, f) && Untaken(s, f) && NoTask(s, f.marker)
  }

  ghost predicate InFlight(s: Race, f: Forward) {
    f !in s.appended && f in s.handed && InTable(s, f) && Untaken(s, f) && NoTask(s, f.marker)
  }

  ghost predicate Taken(s: Race, f: Forward) {
    && f !in s.appended && f in s.handed && !InTable(s, f)
    && f.marker in s.markers && s.markers[f.marker] == Pending && s.writes[f.marker] == 0
    && f.marker in s.first
    && s.taken[Task(f.marker, s.first[f.marker])] == 1
    && (forall t :: t in s.taken && t.marker == f.marker ==> t == Task(f.marker, s.first[f.marker]))
  }

  ghost predicate Settled(s: Race, f: Forward) {
    && f !in s.appended && f in s.handed && !InTable(s, f) && NoTask(s, f.marker)
    && f.marker in s.first && f.marker in s.markers && s.markers[f.marker] == Resolved(s.first[f.marker])
    && s.writes[f.marker] == 1
  }

  ghost predicate InPhase(s: Race, f: Forward) {
    Appended(s, f) || InFlight(s, f) || Taken(s, f) || Settled(s, f)
  }

  /** The parts of the state fit together; they do in every state. */
  ghost predicate Shaped(s: Race) {
    && s.markers.Keys == s.byMarker.Keys
    && (forall m :: m in s.byMarker ==> s.byMarker[m].marker == m)
    && (forall f :: f in s.appended || f in s.handed ==> f.marker in s.byMarker && s.byMarker[f.marker] == f)
    && (forall r :: r in s.inflight ==> s.inflight[r].1 in s.byMarker && s.byMarker[s.inflight[r].1].request == r)
    && (forall t :: t in s.taken ==> t.marker in s.byMarker)
    && (forall m :: m in s.first || s.writes[m] > 0 ==> m in s.byMarker)
  }

  ghost predicate Phased(s: Race) {
    forall m :: m in s.byMarker ==> InPhase(s, s.byMarker[m])
  }

  ghost predicate Sound(s: Race) {
    Shaped(s) && Phased(s)
  }

  /** A step that touches nothing of a forward leaves it in its phase. */
  lemma Untouched(s: Race, s1: Race, g: Forward)
    requires InPhase(s, g)
    requires (g in s1.appended <==> g in s.appended) && (g in s1.handed <==> g in s.handed)
    requires InTable(s1, g) <==> InTable(s, g)
    requires if g.marker in s.first then g.marker in s1.first && s1.first[g.marker] == s.first[g.marker]
             else g.marker !in s1.first
    requires g.marker in s.markers ==> g.marker in s1.markers && s1.markers[g.marker] == s.markers[g.marker]
    requires s1.writes[g.marker] == s.writes[g.marker]
    requires forall t: Task :: t.marker == g.marker ==> s1.taken[t] == s.taken[t]
    ensures InPhase(s1, g)
  {
    hide InTable;
    if Appended(s, g) {
      assert Appended(s1, g);
    } else if InFlight(s, g) {
      assert InFlight(s1, g);
    } else if Taken(s, g) {
      assert Taken(s1, g);
    } else {
      assert Settled(s1, g);
    }
  }

  /** Nothing but the forward with marker `own` is touched. */
  ghost predicate OnlyTouches(s: Race, s1: Race, own: MarkerId) {
    forall g: Forward :: g.marker != own ==>
      && (g in s1.appended <==> g in s.appended) && (g in s1.handed <==> g in s.handed)
      && (InTable(s1, g) <==> InTable(s, g))
      && (if g.marker in s.first then g.marker in s1.first && s1.first[g.marker] == s.first[g.marker]
          else g.marker !in s1.first)
      && (g.marker in s.markers ==> g.marker in s1.markers && s1.markers[g.marker] == s.markers[g.marker])
      && s1.writes[g.marker] == s.writes[g.marker]
      && (forall t: Task :: t.marker == g.marker ==> s1.taken[t] == s.taken[t])
  }

  lemma OthersStay(s: Race, s1: Race, own: MarkerId)
    requires Shaped(s) && Phased(s) && OnlyTouches(s, s1, own)
    requires forall m :: m in s1.byMarker && m != own ==> m in s.byMarker && s1.byMarker[m] == s.byMarker[m]
    requires own in s1.byMarker ==> InPhase(s1, s1.byMarker[own])
    ensures Phased(s1)
  {
    hide InPhase, InTable;
    forall m | m in s1.byMarker ensures InPhase(s1, s1.byMarker[m]) {
      if m != own {
        Untouched(s, s1, s.byMarker[m]);
      }
    }
  }

  // ------------------------------------------------------------- tidy steps

  /** A step that keeps to the forwards' own entries: none is overwritten, and a reply takes the one made for it. */
  predicate Tidy(s: Race, step: Step) {
    match step
    case Track(f) => f in s.appended ==> f.request !in s.inflight
    case Reply(f, _) => f in s.handed && f.request in s.inflight ==> s.inflight[f.request].1 == f.marker
    case _ => true
  }

  lemma {:induction false} AlwaysShaped(steps: seq<Step>)
    ensures Shaped(After(NO_FORWARDS, steps))
  {
    if steps != [] {
      AlwaysShaped(steps[..|steps| - 1]);
      NextShaped(After(NO_FORWARDS, steps[..|steps| - 1]), steps[|steps| - 1]);
    }
  }

  lemma AppendShaped(s: Race, f: Forward)
    requires Shaped(s)
    ensures Shaped(Next(s, Append(f)))
  {
  }

  lemma TrackShaped(s: Race, f: Forward)
    requires Shaped(s)
    ensures Shaped(Next(s, Track(f)))
  {
  }

  lemma WriteShaped(s: Race, task: Task)
    requires Shaped(s)
    ensures Shaped(Next(s, Write(task)))
  {
  }

  lemma NextShaped(s: Race, step: Step)
    requires Shaped(s)
    ensures Shaped(Next(s, step))
  {
    match step {
      case Append(f) => AppendShaped(s, f);
      case Track(f) => TrackShaped(s, f);
      case Reply(f, outcome) =>
        if f in s.handed && f.request in s.inflight {
          TakeShaped(s, f.request, Task(f.marker, outcome));
        }
      case Local(request) =>
        if request in s.inflight {
          TakeShaped(s, request, Task(s.inflight[request].1, LOCALLY));
        }
      case Write(task) => WriteShaped(s, task);
    }
  }

  lemma TakeShaped(s: Race, request: RequestId, task: Task)
    requires Shaped(s) && task.marker in s.byMarker
    ensures Shaped(Take(s, request, task))
  {
  }

  lemma AppendPhased(s: Race, f: Forward)
    requires Sound(s)
    ensures Phased(Next(s, Append(f)))
  {
    if f.marker !in s.markers {
      AppendMoves(s, f);
      hide InPhase, Shaped, Phased, OnlyTouches;
      OthersStay(s, Next(s, Append(f)), f.marker);
    }
  }

  lemma AppendMoves(s: Race, f: Forward)
    requires Shaped(s) && f.marker !in s.markers
    ensures InPhase(Next(s, Append(f)), f) && OnlyTouches(s, Next(s, Append(f)), f.marker)
  {
    assert Appended(Next(s, Append(f)), f);
  }

  lemma TrackMoves(s: Race, f: Forward)
    requires Sound(s) && f in s.appended && f.request !in s.inflight
    ensures InPhase(Next(s, Track(f)), f) && OnlyTouches(s, Next(s, Track(f)), f.marker)
    ensures f.marker in s.byMarker && s.byMarker[f.marker] == f
  {
    assert InPhase(s, s.byMarker[f.marker]);
    assert InFlight(Next(s, Track(f)), f);
  }

  lemma TrackPhased(s: Race, f: Forward)
    requires Sound(s) && Tidy(s, Track(f))
    ensures Phased(Next(s, Track(f)))
  {
    if f in s.appended {
      TrackMoves(s, f);
      hide InPhase, Shaped, Phased, OnlyTouches;
      OthersStay(s, Next(s, Track(f)), f.marker);
    }
  }

  lemma TakeMoves(s: Race, f: Forward, outcome: string)
    requires InPhase(s, f) && InTable(s, f)
    ensures InPhase(Take(s, f.request, Task(f.marker, outcome)), f)
  {
    var s1 := Take(s, f.request, Task(f.marker, outcome));
    assert s.taken[Task(f.marker, outcome)] == 0;
    assert Taken(s1, f);
  }

  lemma TakeTouches(s: Race, f: Forward, outcome: string)
    requires InTable(s, f)
    ensures OnlyTouches(s, Take(s, f.request, Task(f.marker, outcome)), f.marker)
  {
  }

  lemma TakePhased(s: Race, f: Forward, outcome: string)
    requires Sound(s) && f.marker in s.byMarker && s.byMarker[f.marker] == f && InTable(s, f)
    ensures Phased(Take(s, f.request, Task(f.marker, outcome)))
  {
    hide InPhase, Shaped, OnlyTouches;
    TakeMoves(s, f, outcome);
    TakeTouches(s, f, outcome);
    OthersStay(s, Take(s, f.request, Task(f.marker, outcome)), f.marker);
  }

  lemma WriteMoves(s: Race, f: Forward, task: Task)
    requires InPhase(s, f) && task in s.taken && task.marker == f.marker
    ensures InPhase(Next(s, Write(task)), f)
  {
    assert Taken(s, f);
    assert Settled(Next(s, Write(task)), f);
  }

  lemma WriteTouches(s: Race, task: Task)
    requires task in s.taken
    ensures OnlyTouches(s, Next(s, Write(task)), task.marker)
  {
  }

  lemma WritePhased(s: Race, task: Task)
    requires Sound(s)
    ensures Phased(Next(s, Write(task)))
  {
    if task in s.taken {
      var f := s.byMarker[task.marker];
      assert f.marker == task.marker;
      hide InPhase, Shaped, OnlyTouches;
      WriteMoves(s, f, task);
      WriteTouches(s, task);
      OthersStay(s, Next(s, Write(task)), task.marker);
    }
  }

  lemma StepSound(s: Race, step: Step)
    requires Sound(s) && Tidy(s, step)
    ensures Sound(Next(s, step))
  {
    hide InPhase;
    NextShaped(s, step);
    match step {
      case Append(f) => AppendPhased(s, f);
      case Track(f) => TrackPhased(s, f);
      case Reply(f, outcome) =>
        if f in s.handed && f.request in s.inflight {
          TakePhased(s, f, outcome);
        }
      case Local(request) =>
        if request in s.inflight {
          TakePhased(s, s.byMarker[s.inflight[request].1], LOCALLY);
        }
      case Write(task) => WritePhased(s, task);
    }
  }

  // ------------------------------------------------------------- what is promised, and exactly when

  /** Someone is still going to settle the marker. */
  ghost predicate Owned(s: Race, m: MarkerId) {
    || (exists f :: f in s.appended && f.marker == m)
    || (exists r :: r in s.inflight && s.inflight[r].1 == m)
    || (exists t :: t in s.taken && t.marker == m)
  }

  /**
   A marker is pending exactly while someone is to settle it, entries in flight name different pending markers, no
   marker is written twice, and what is written is the outcome of the side that took the entry first.
   */
  ghost predicate Kept(s: Race) {
    && (forall m :: m in s.markers ==> (s.markers[m] == Pending <==> Owned(s, m)))
    && (forall r :: r in s.inflight ==> s.inflight[r].1 in s.markers && s.markers[s.inflight[r].1] == Pending)
    && (forall q, r :: q in s.inflight && r in s.inflight && s.inflight[q].1 == s.inflight[r].1 ==> q == r)
    && (forall m :: s.writes[m] <= 1)
    && (forall m :: m in s.markers && s.markers[m].Resolved? ==>
          s.writes[m] == 1 && m in s.first && s.markers[m].outcome == s.first[m])
  }

  lemma PhaseMeans(s: Race, f: Forward)
    requires Shaped(s) && f.marker in s.byMarker && s.byMarker[f.marker] == f && InPhase(s, f)
    ensures s.markers[f.marker] == Pending <==> Owned(s, f.marker)
    ensures s.writes[f.marker] <= 1
    ensures InTable(s, f) ==> s.markers[f.marker] == Pending
    ensures s.markers[f.marker].Resolved? ==>
              s.writes[f.marker] == 1 && f.marker in s.first && s.markers[f.marker].outcome == s.first[f.marker]
  {
    if InFlight(s, f) {
      assert s.inflight[f.request].1 == f.marker;
    } else if Taken(s, f) {
      assert Task(f.marker, s.first[f.marker]) in s.taken;
    }
  }

  lemma SoundKept(s: Race)
    requires Sound(s)
    ensures Kept(s)
  {
    hide InPhase, Owned;
    forall m | m in s.markers
      ensures s.markers[m] == Pending <==> Owned(s, m)
      ensures s.writes[m] <= 1
      ensures s.markers[m].Resolved? ==> s.writes[m] == 1 && m in s.first && s.markers[m].outcome == s.first[m]
    {
      PhaseMeans(s, s.byMarker[m]);
    }
    forall r | r in s.inflight ensures s.markers[s.inflight[r].1] == Pending {
      PhaseMeans(s, s.byMarker[s.inflight[r].1]);
    }
  }

  ghost predicate Orphan(s: Race, m: MarkerId) {
    m in s.markers && s.markers[m] == Pending && !Owned(s, m)
  }

  /** An untidy step leaves a pending marker to nobody, there and then. */
  lemma UntidyOrphans(s: Race, step: Step)
    requires Sound(s) && !Tidy(s, step)
    ensures exists m :: Orphan(Next(s, step), m)
  {
    var f := step.f;
    var m := s.inflight[f.request].1;
    var g := s.byMarker[m];
    assert InTable(s, g) && InPhase(s, g);
    assert InFlight(s, g);
    if step.Track? {
      assert InPhase(s, s.byMarker[f.marker]);
      assert Appended(s, f);
    }
    assert m != f.marker;
    var s1 := Next(s, step);
    forall r | r in s1.inflight && r != f.request ensures s1.inflight[r].1 != m {
      assert s1.inflight[r] == s.inflight[r] && s.byMarker[s.inflight[r].1].request == r;
    }
    assert Orphan(s1, m);
  }

  /** Every step so far was tidy. */
  predicate Orderly(steps: seq<Step>) {
    steps != [] ==>
      var front := steps[..|steps| - 1];
      Orderly(front) && Tidy(After(NO_FORWARDS, front), steps[|steps| - 1])
  }

  /** The promise holds now and held after every step so far. */
  ghost predicate KeptThroughout(steps: seq<Step>) {
    Kept(After(NO_FORWARDS, steps)) && (steps != [] ==> KeptThroughout(steps[..|steps| - 1]))
  }

  lemma {:induction false} OrderlySound(steps: seq<Step>)
    requires Orderly(steps)
    ensures Sound(After(NO_FORWARDS, steps))
  {
    if steps != [] {
      var front := steps[..|steps| - 1];
      OrderlySound(front);
      StepSound(After(NO_FORWARDS, front), steps[|steps| - 1]);
    }
  }

  /**
   For every history, in any interleaving: the promise holds after each of its steps if and only if each step was
   tidy. A request id does come to be forwarded twice: the subscription delivers events again after a replay, and
   the desktop's own run reports them a second time beside it.
   */
  lemma {:induction false} SettledOnce(steps: seq<Step>)
    ensures KeptThroughout(steps) <==> Orderly(steps)
  {
    hide Kept, Sound, Tidy, Next;
    if steps == [] {
      OrderlySound(steps);
      SoundKept(NO_FORWARDS);
    } else {
      var front, step := steps[..|steps| - 1], steps[|steps| - 1];
      var s := After(NO_FORWARDS, front);
      SettledOnce(front);
      if Orderly(front) {
        OrderlySound(front);
        if Tidy(s, step) {
          StepSound(s, step);
          SoundKept(Next(s, step));
        } else {
          UntidyOrphans(s, step);
          var m :| Orphan(Next(s, step), m);
          OrphanBreaks(Next(s, step), m);
        }
      }
    }
  }

  lemma OrphanBreaks(s: Race, m: MarkerId)
    requires Orphan(s, m)
    ensures !Kept(s)
  {
  }

  /** As long as all went well, the next step loses a marker exactly when it is untidy. */
  lemma StepLoses(steps: seq<Step>, step: Step)
    requires Orderly(steps)
    ensures (exists m :: Orphan(Next(After(NO_FORWARDS, steps), step), m)) <==> !Tidy(After(NO_FORWARDS, steps), step)
  {
    hide Tidy, Next;
    var s := After(NO_FORWARDS, steps);
    OrderlySound(steps);
    if Tidy(s, step) {
      StepSound(s, step);
      SoundKept(Next(s, step));
    } else {
      UntidyOrphans(s, step);
    }
  }

  /** No request id is forwarded twice. */
  predicate Unique(steps: seq<Step>) {
    forall i, j :: 0 <= i < j < |steps| && steps[i].Append? && steps[j].Append? ==>
      steps[i].f.request != steps[j].f.request
  }

  lemma {:induction false} SeenBefore(steps: seq<Step>, m: MarkerId)
    requires m in After(NO_FORWARDS, steps).byMarker
    ensures exists i :: 0 <= i < |steps| && steps[i] == Append(After(NO_FORWARDS, steps).byMarker[m])
  {
    if steps != [] {
      var front, last := steps[..|steps| - 1], steps[|steps| - 1];
      var before := After(NO_FORWARDS, front).byMarker;
      if m in before && After(NO_FORWARDS, steps).byMarker[m] == before[m] {
        SeenBefore(front, m);
        var i :| 0 <= i < |front| && front[i] == Append(before[m]);
        assert steps[i] == Append(before[m]);
      } else {
        assert last == Append(After(NO_FORWARDS, steps).byMarker[m]);
      }
    }
  }

  /** Forwards of one request are one forward, when ids are used once. */
  lemma OneForward(steps: seq<Step>, m: MarkerId, n: MarkerId)
    requires Unique(steps)
    requires var s := After(NO_FORWARDS, steps);
             m in s.byMarker && n in s.byMarker && s.byMarker[m].request == s.byMarker[n].request
    ensures After(NO_FORWARDS, steps).byMarker[m] == After(NO_FORWARDS, steps).byMarker[n]
  {
    hide After;
    var known := After(NO_FORWARDS, steps).byMarker;
    SeenBefore(steps, m);
    SeenBefore(steps, n);
    var i :| 0 <= i < |steps| && steps[i] == Append(known[m]);
    var j :| 0 <= j < |steps| && steps[j] == Append(known[n]);
  }

  predicate OneEach(known: map<MarkerId, Forward>) {
    forall m, n :: m in known && n in known && known[m].request == known[n].request ==> m == n
  }

  lemma NoTwoForwards(steps: seq<Step>)
    requires Unique(steps)
    ensures OneEach(After(NO_FORWARDS, steps).byMarker)
  {
    hide After, Unique;
    AlwaysShaped(steps);
    var known := After(NO_FORWARDS, steps).byMarker;
    forall m, n | m in known && n in known && known[m].request == known[n].request ensures m == n {
      OneForward(steps, m, n);
    }
  }

  /** What is untidy has to do with two forwards of one request. */
  lemma NoReuseIsTidy(s: Race, step: Step)
    requires Sound(s)
    requires OneEach(s.byMarker)
    ensures Tidy(s, step)
  {
    if step.Track? && step.f in s.appended {
      assert InPhase(s, s.byMarker[step.f.marker]);
    }
  }

  /** Using every id once is enough. */
  lemma {:induction false} UniqueIsOrderly(steps: seq<Step>)
    requires Unique(steps)
    ensures Orderly(steps)
  {
    hide Tidy, Sound, After;
    if steps != [] {
      var front := steps[..|steps| - 1];
      assert Unique(front);
      UniqueIsOrderly(front);
      OrderlySound(front);
      NoTwoForwards(front);
      NoReuseIsTidy(After(NO_FORWARDS, front), steps[|steps| - 1]);
    }
  }

  // ------------------------------------------------------------- ids used again

  lemma AfterSnoc(s: Race, steps: seq<Step>, step: Step)
    ensures After(s, steps + [step]) == Next(After(s, steps), step)
    ensures After(s, []) == s
  {
    assert (steps + [step])[..|steps|] == steps;
  }

  lemma AfterFour(s: Race, a: Step, b: Step, c: Step, d: Step)
    ensures After(s, [a, b, c, d]) == Next(Next(Next(Next(s, a), b), c), d)
  {
    hide Next;
    AfterSnoc(s, [], a);
    AfterSnoc(s, [a], b);
    AfterSnoc(s, [a, b], c);
    AfterSnoc(s, [a, b, c], d);
    assert [] + [a] == [a] && [a] + [b] == [a, b] && [a, b] + [c] == [a, b, c] && [a, b, c] + [d] == [a, b, c, d];
  }

  lemma {:induction false} AfterConcat(s: Race, a: seq<Step>, b: seq<Step>)
    ensures After(s, a + b) == After(After(s, a), b)
    decreases |b|
  {
    if b == [] {
      assert a + b == a;
    } else {
      assert (a + b)[..|a + b| - 1] == a + b[..|b| - 1];
      AfterConcat(s, a, b[..|b| - 1]);
    }
  }

  /** Once taken, an entry's outcome stands, whatever happens afterwards. */
  lemma {:induction false} FirstTakerStands(front: seq<Step>, rest: seq<Step>, m: MarkerId)
    requires m in After(NO_FORWARDS, front).first
    ensures m in After(NO_FORWARDS, front + rest).first
    ensures After(NO_FORWARDS, front + rest).first[m] == After(NO_FORWARDS, front).first[m]
    decreases |rest|
  {
    hide Next;
    if rest == [] {
      assert front + rest == front;
    } else {
      var all := front + rest;
      assert all[..|all| - 1] == front + rest[..|rest| - 1];
      FirstTakerStands(front, rest[..|rest| - 1], m);
      FirstKept(After(NO_FORWARDS, front + rest[..|rest| - 1]), rest[|rest| - 1], m);
    }
  }

  lemma FirstKept(s: Race, step: Step, m: MarkerId)
    ensures m in s.first ==> m in Next(s, step).first && Next(s, step).first[m] == s.first[m]
  {
  }

  /**
   Who takes an entry first decides, then and there: in a history that stays orderly its marker never comes to say
   anything but that outcome, and it does say it once nobody is left to settle it.
   */
  lemma FirstTakerDecides(front: seq<Step>, rest: seq<Step>, m: MarkerId)
    requires Orderly(front + rest) && m in After(NO_FORWARDS, front).first
    ensures var s := After(NO_FORWARDS, front + rest);
            && m in s.markers
            && s.markers[m] == if Owned(s, m) then Pending else Resolved(After(NO_FORWARDS, front).first[m])
  {
    hide Orderly, Next, After, Owned, InPhase;
    FirstTakerStands(front, rest, m);
    OrderlySound(front + rest);
    SoundKept(After(NO_FORWARDS, front + rest));
  }

  /** Forwarded again while its first forward is in flight: the first marker stays pending for ever. */
  lemma ReusedIdOrphans(f: Forward, g: Forward)
    requires f.request == g.request && f.marker != g.marker
    ensures var s := After(NO_FORWARDS, [Append(f), Track(f), Append(g), Track(g)]);
            Orphan(s, f.marker) && s.inflight == map[g.request := (g.session, g.marker)]
  {
    AfterFour(NO_FORWARDS, Append(f), Track(f), Append(g), Track(g));
    var s1 := Race(map[f.marker := f], {f}, {}, map[], multiset{}, map[f.marker := Pending], map[], multiset{});
    assert Next(NO_FORWARDS, Append(f)) == s1;
    var s2 := s1.(appended := {}, handed := {f}, inflight := map[f.request := (f.session, f.marker)]);
    assert Next(s1, Track(f)) == s2;
    var s3 := s2.(byMarker := s2.byMarker[g.marker := g], appended := {g}, markers := s2.markers[g.marker := Pending]);
    assert Next(s2, Append(g)) == s3;
    var s4 := s3.(appended := {}, handed := {f, g}, inflight := map[g.request := (g.session, g.marker)]);
    assert Next(s3, Track(g)) == s4;
  }

  /** One forward, appended, tracked and settled on the desktop. */
  function SettledHere(f: Forward): Race {
    Race(map[f.marker := f], {}, {f}, map[], multiset{}, map[f.marker := Resolved(LOCALLY)],
         map[f.marker := LOCALLY], multiset{f.marker})
  }

  lemma SettlesHere(f: Forward)
    ensures Next(Next(Next(Next(NO_FORWARDS, Append(f)), Track(f)), Local(f.request)), Write(Task(f.marker, LOCALLY)))
            == SettledHere(f)
  {
    var s1 := Race(map[f.marker := f], {f}, {}, map[], multiset{}, map[f.marker := Pending], map[], multiset{});
    assert Next(NO_FORWARDS, Append(f)) == s1;
    var s2 := s1.(appended := {}, handed := {f}, inflight := map[f.request := (f.session, f.marker)]);
    assert Next(s1, Track(f)) == s2;
    var s3 := s2.(inflight := map[], taken := multiset{Task(f.marker, LOCALLY)}, first := map[f.marker := LOCALLY]);
    assert Next(s2, Local(f.request)) == s3;
    assert Next(s3, Write(Task(f.marker, LOCALLY))) == SettledHere(f);
  }

  /** The same request forwarded again. */
  function ForwardedAgain(f: Forward, g: Forward): Race {
    SettledHere(f).(byMarker := map[f.marker := f, g.marker := g], handed := {f, g},
                    inflight := map[g.request := (g.session, g.marker)],
                    markers := map[f.marker := Resolved(LOCALLY), g.marker := Pending])
  }

  lemma ForwardsAgain(f: Forward, g: Forward)
    requires f.marker != g.marker
    ensures Next(Next(SettledHere(f), Append(g)), Track(g)) == ForwardedAgain(f, g)
  {
    var s1 := SettledHere(f).(byMarker := map[f.marker := f, g.marker := g], appended := {g},
                              markers := map[f.marker := Resolved(LOCALLY), g.marker := Pending]);
    assert Next(SettledHere(f), Append(g)) == s1;
    assert Next(s1, Track(g)) == ForwardedAgain(f, g);
  }

  /** The first forward's resolver has taken the second one's entry. */
  function TakenLate(f: Forward, g: Forward, outcome: string): Race {
    ForwardedAgain(f, g).(inflight := map[], taken := multiset{Task(f.marker, outcome)})
  }

  lemma TakesLate(f: Forward, g: Forward, outcome: string)
    requires f.request == g.request
    ensures Next(ForwardedAgain(f, g), Reply(f, outcome)) == TakenLate(f, g, outcome)
  {
    var s := Next(ForwardedAgain(f, g), Reply(f, outcome));
    assert s.taken == multiset{Task(f.marker, outcome)};
  }

  lemma RepliesLate(f: Forward, g: Forward, outcome: string)
    requires f.request == g.request && f.marker != g.marker
    ensures var s := Next(Next(ForwardedAgain(f, g), Reply(f, outcome)), Write(Task(f.marker, outcome)));
            && s.writes[f.marker] == 2 && s.first == map[f.marker := LOCALLY]
            && s.markers == map[f.marker := Resolved(outcome), g.marker := Pending]
            && s.inflight == map[] && s.taken == multiset{} && s.appended == {}
  {
    TakesLate(f, g, outcome);
  }

  /** Forwarded again after the desktop has settled it: a reply to the first forward takes the entry of the second. */
  lemma LateReplyOverwrites(f: Forward, g: Forward, outcome: string)
    requires f.request == g.request && f.marker != g.marker
    ensures var a := [Append(f), Track(f), Local(f.request), Write(Task(f.marker, LOCALLY))];
            var b := [Append(g), Track(g), Reply(f, outcome), Write(Task(f.marker, outcome))];
            var s := After(NO_FORWARDS, a + b);
            && s.writes[f.marker] == 2 && s.first == map[f.marker := LOCALLY]
            && f.marker in s.markers && s.markers[f.marker] == Resolved(outcome) && Orphan(s, g.marker)
  {
    hide Next;
    var a := [Append(f), Track(f), Local(f.request), Write(Task(f.marker, LOCALLY))];
    var b := [Append(g), Track(g), Reply(f, outcome), Write(Task(f.marker, outcome))];
    AfterConcat(NO_FORWARDS, a, b);
    AfterFour(NO_FORWARDS, Append(f), Track(f), Local(f.request), Write(Task(f.marker, LOCALLY)));
    SettlesHere(f);
    AfterFour(SettledHere(f), Append(g), Track(g), Reply(f, outcome), Write(Task(f.marker, outcome)));
    ForwardsAgain(f, g);
    RepliesLate(f, g, outcome);
  }

  // ------------------------------------------------------------- the table itself

  /** The table and the session's markers; `race` is the state of the step system, and each method one step, or two. */
  class ChannelForwardState {
    var inflight: map<RequestId, (SessionId, MarkerId)>
    var markers: map<MarkerId, Status>
    ghost var race: Race

    ghost predicate Valid()
      reads this
    {
      race.inflight == inflight && race.markers == markers
    }

    constructor ()
      ensures Valid() && race == NO_FORWARDS
    {
      inflight, markers, race := map[], map[], NO_FORWARDS;
    }

    method AppendMarker(f: Forward)
      requires Valid()
      modifies this
      ensures Valid() && race == Next(old(race), Append(f))
    {
      if f.marker !in markers {
        markers := markers[f.marker := Pending];
      }
      race := Next(race, Append(f));
    }

    method Track(f: Forward)
      requires Valid() && f in race.appended
      modifies `inflight, `race
      ensures Valid() && race == Next(old(race), Step.Track(f))
    {
      inflight := inflight[f.request := (f.session, f.marker)];
      race := Next(race, Step.Track(f));
    }

    /** Whoever takes the entry settles it; there is nothing left for the other. */
    method TakeEntry(request: RequestId) returns (entry: Option<(SessionId, MarkerId)>)
      modifies `inflight
      ensures entry == if request in old(inflight) then Some(old(inflight)[request]) else None
      ensures inflight == old(inflight) - {request}
    {
      if request !in inflight {
        return None;
      }
      entry := Some(inflight[request]);
      inflight := inflight - {request};
    }

    /** The channel's reply reaches the table. */
    method TakeForReply(f: Forward, outcome: string) returns (won: bool)
      requires Valid() && f in race.handed
      modifies `inflight, `race
      ensures Valid() && race == Next(old(race), Reply(f, outcome)) && won == (f.request in old(inflight))
    {
      var entry := TakeEntry(f.request);
      race := Next(race, Reply(f, outcome));
      won := entry.Some?;
    }

    /** The desktop's decision reaches the table. */
    method TakeLocally(request: RequestId) returns (marker: Option<MarkerId>)
      requires Valid()
      modifies `inflight, `race
      ensures Valid() && race == Next(old(race), Local(request))
      ensures marker == if request in old(inflight) then Some(old(inflight)[request].1) else None
    {
      var entry := TakeEntry(request);
      race := Next(race, Local(request));
      marker := if entry.Some? then Some(entry.value.1) else None;
    }

    /** Finds the marker and overwrites its status, whatever it was. */
    method ResolveMarker(marker: MarkerId, outcome: string)
      requires Valid() && Task(marker, outcome) in race.taken
      modifies `markers, `race
      ensures Valid() && race == Next(old(race), Write(Task(marker, outcome)))
    {
      if marker in markers {
        markers := markers[marker := Resolved(outcome)];
      }
      race := Next(race, Write(Task(marker, outcome)));
    }

    /** The channel's reply: settles the resolver's own marker if the entry is still there. */
    method Settle(f: Forward, outcome: string)
      requires Valid() && f in race.handed
      modifies this
      ensures Valid()
      ensures race == if f.request !in old(inflight) then old(race)
                      else Next(Next(old(race), Reply(f, outcome)), Write(Task(f.marker, outcome)))
    {
      var won := TakeForReply(f, outcome);
      if !won {
        return;
      }
      ResolveMarker(f.marker, outcome);
    }

    /** The desktop's decision: settles the marker in the entry, if the entry is still there. */
    method SettleLocally(request: RequestId)
      requires Valid()
      modifies this
      ensures Valid()
      ensures race == if request !in old(inflight) then old(race)
                      else Next(Next(old(race), Local(request)), Write(Task(old(inflight)[request].1, LOCALLY)))
    {
      var marker := TakeLocally(request);
      if marker.None? {
        return;
      }
      ResolveMarker(marker.value, LOCALLY);
    }
  }
}
