/**
 The desktop's registry of open approvals and questions: which gate is waiting
 for which request, and which runs can be cancelled.
 */
module Hitl {
  type RequestId(!new, ==)
  type Decision(!new, ==)
  type Answer(!new, ==)

  datatype Call =
    | Decided(request: RequestId, decision: Decision)
    | Answered(request: RequestId, answer: Answer)
    | CancelledAll

  /** A run's gate, as far as the registry uses it: the calls it has received. */
  class HitlGate {
    var calls: seq<Call>

    constructor ()
      ensures calls == []
    {
      calls := [];
    }

    method Resolve(request: RequestId, decision: Decision)
      modifies this
      ensures calls == old(calls) + [Decided(request, decision)]
    {
      calls := calls + [Decided(request, decision)];
    }

    method AnswerTo(request: RequestId, answer: Answer)
      modifies this
      ensures calls == old(calls) + [Answered(request, answer)]
    {
      calls := calls + [Answered(request, answer)];
    }

    method CancelAllPending()
      modifies this
      ensures calls == old(calls) + [CancelledAll]
    {
      calls := calls + [CancelledAll];
    }
  }

  class CancelFlag {
    var raised: bool

    constructor ()
      ensures !raised
    {
      raised := false;
    }
  }

  /** The entries whose value is not to be dropped. */
  function Without<V>(m: map<RequestId, V>, drop: V -> bool): (r: map<RequestId, V>)
    ensures forall id :: id in r <==> id in m && !drop(m[id])
    ensures forall id :: id in r ==> r[id] == m[id]
  {
    map id | id in m && !drop(m[id]) :: m[id]
  }

  // ------------------------------------------------------------- the registry as a step system

  /** What happens to the table of open requests; `Decide` is an approval or an answer. */
  datatype Op =
    | Tracked(request: RequestId, gate: HitlGate)
    | Decide(request: RequestId)
    | Forgotten(gate: HitlGate)
    | AllCancelled

  /** The table, and the decisions that have reached a gate, in order. */
  datatype Registry = Registry(open: map<RequestId, HitlGate>, reached: seq<(RequestId, HitlGate)>)

  const NO_REQUESTS := Registry(map[], [])

  function Next(s: Registry, op: Op): Registry {
    match op
    case Tracked(request, gate) => s.(open := s.open[request := gate])
    case Decide(request) =>
      if request in s.open then Registry(s.open - {request}, s.reached + [(request, s.open[request])]) else s
    case Forgotten(gate) => s.(open := Without(s.open, g => g == gate))
    case AllCancelled => s.(open := map[])
  }

  type Runs = map<RequestId, (CancelFlag, HitlGate)>

  // The gates and flags that some of a map's entries name.

  ghost function GatesIn(m: map<RequestId, HitlGate>, ids: set<RequestId>): set<HitlGate>
    requires ids <= m.Keys
  {
    set id | id in ids :: m[id]
  }

  ghost function RunGatesIn(m: Runs, ids: set<RequestId>): set<HitlGate>
    requires ids <= m.Keys
  {
    set id | id in ids :: m[id].1
  }

  ghost function FlagsIn(m: Runs, ids: set<RequestId>): set<CancelFlag>
    requires ids <= m.Keys
  {
    set id | id in ids :: m[id].0
  }

  lemma GatesGrow(m: map<RequestId, HitlGate>, ids: set<RequestId>, id: RequestId)
    requires ids <= m.Keys && id in m
    ensures GatesIn(m, ids + {id}) == GatesIn(m, ids) + {m[id]}
    ensures GatesIn(m, {}) == {}
  {
  }

  lemma RunsGrow(m: Runs, ids: set<RequestId>, id: RequestId)
    requires ids <= m.Keys && id in m
    ensures RunGatesIn(m, ids + {id}) == RunGatesIn(m, ids) + {m[id].1}
    ensures FlagsIn(m, ids + {id}) == FlagsIn(m, ids) + {m[id].0}
  {
  }

  lemma NoRuns(m: Runs)
    ensures RunGatesIn(m, {}) == {} && FlagsIn(m, {}) == {}
  {
  }

  class HitlState {
    var pending: map<RequestId, HitlGate>
    var runs: map<RequestId, (CancelFlag, HitlGate)>
    ghost var reached: seq<(RequestId, HitlGate)>

    constructor ()
      ensures View() == NO_REQUESTS && runs == map[]
    {
      pending, runs, reached := map[], map[], [];
    }

    ghost function View(): Registry
      reads this
    {
      Registry(pending, reached)
    }

    ghost function WaitingGates(): set<HitlGate>
      reads this
    {
      GatesIn(pending, pending.Keys)
    }

    ghost function RunGates(): set<HitlGate>
      reads this
    {
      RunGatesIn(runs, runs.Keys)
    }

    ghost function Flags(): set<CancelFlag>
      reads this
    {
      FlagsIn(runs, runs.Keys)
    }

    method Track(request: RequestId, gate: HitlGate)
      modifies `pending
      ensures View() == Next(old(View()), Tracked(request, gate)) && pending == old(pending)[request := gate]
    {
      pending := pending[request := gate];
    }

    method TrackRun(request: RequestId, cancel: CancelFlag, gate: HitlGate)
      modifies `runs
      ensures runs == old(runs)[request := (cancel, gate)]
    {
      runs := runs[request := (cancel, gate)];
    }

    /** Reading only: a cancelled run stays registered. */
    method CancelRun(request: RequestId) returns (found: bool)
      modifies if request in runs then {runs[request].0 as object, runs[request].1} else {}
      ensures found == (request in runs)
      ensures found ==> runs[request].0.raised && runs[request].1.calls == old(runs[request].1.calls) + [CancelledAll]
    {
      if request !in runs {
        return false;
      }
      var (cancel, gate) := runs[request];
      cancel.raised := true;
      gate.CancelAllPending();
      found := true;
    }

    /** The entry goes first, so no second decision finds it. */
    method ResolveApproval(request: RequestId, decision: Decision) returns (found: bool)
      modifies `pending, `reached, if request in pending then {pending[request]} else {}
      ensures View() == Next(old(View()), Decide(request)) && found == (request in old(pending))
      ensures found ==>
                var gate := old(pending)[request];
                gate.calls == old(gate.calls) + [Decided(request, decision)]
    {
      if request !in pending {
        return false;
      }
      var gate := pending[request];
      pending, reached := pending - {request}, reached + [(request, gate)];
      gate.Resolve(request, decision);
      found := true;
    }

    /** An answer takes the same entry an approval would take. */
    method AnswerQuestion(request: RequestId, answer: Answer) returns (found: bool)
      modifies `pending, `reached, if request in pending then {pending[request]} else {}
      ensures View() == Next(old(View()), Decide(request)) && found == (request in old(pending))
      ensures found ==>
                var gate := old(pending)[request];
                gate.calls == old(gate.calls) + [Answered(request, answer)]
    {
      if request !in pending {
        return false;
      }
      var gate := pending[request];
      pending, reached := pending - {request}, reached + [(request, gate)];
      gate.AnswerTo(request, answer);
      found := true;
    }

    /** All entries of one gate, and no others, leave both maps. */
    method Forget(gate: HitlGate)
      modifies `pending, `runs
      ensures View() == Next(old(View()), Forgotten(gate))
      ensures forall id :: id in pending <==> id in old(pending) && old(pending)[id] != gate
      ensures forall id :: id in pending ==> pending[id] == old(pending)[id]
      ensures forall id :: id in runs <==> id in old(runs) && old(runs)[id].1 != gate
      ensures forall id :: id in runs ==> runs[id] == old(runs)[id]
    {
      pending := Without(pending, (g: HitlGate) => g == gate);
      runs := Without(runs, (r: (CancelFlag, HitlGate)) => r.1 == gate);
    }

    /** The gates waiting in `pending`, each once. */
    method CollectWaiting() returns (seen: seq<HitlGate>)
      ensures NoRepeats(seen) && Members(seen) == WaitingGates()
    {
      hide NoRepeats, Members, GatesIn;
      seen := NoGates();
      var ids := pending.Keys;
      ghost var done: set<RequestId> := {};
      while ids != {}
        invariant NoRepeats(seen) && ids + done == pending.Keys && ids !! done
        invariant Members(seen) == GatesIn(pending, done)
        decreases |ids|
      {
        var id :| id in ids;
        GatesGrow(pending, done, id);
        ids := ids - {id};
        done := done + {id};
        seen := AddNew(seen, pending[id]);
      }
      assert done == pending.Keys;
    }

    /** Raises every run's flag, and adds the gates of the runs. */
    method CollectRuns(before: seq<HitlGate>) returns (seen: seq<HitlGate>)
      requires NoRepeats(before)
      modifies Flags()
      ensures NoRepeats(seen) && Members(seen) == Members(before) + RunGates()
      ensures forall f :: f in Flags() ==> f.raised
    {
      hide NoRepeats, Members, RunGatesIn, FlagsIn;
      seen := before;
      var table := runs;
      var ids := table.Keys;
      ghost var flags: set<CancelFlag> := {};
      NoRuns(table);
      assert table.Keys - ids == {};
      while ids != {}
        invariant NoRepeats(seen) && ids <= table.Keys
        invariant Members(seen) == Members(before) + RunGatesIn(table, table.Keys - ids)
        invariant flags == FlagsIn(table, table.Keys - ids) && forall f :: f in flags ==> f.raised
        decreases |ids|
      {
        var id :| id in ids;
        RunsGrow(table, table.Keys - ids, id);
        FlagNamed(table, id);
        assert table.Keys - (ids - {id}) == table.Keys - ids + {id};
        ids := ids - {id};
        flags := flags + {table[id].0};
        table[id].0.raised := true;
        seen := AddNew(seen, table[id].1);
      }
      assert table.Keys - ids == table.Keys;
    }

    /** Raises all flags, empties both maps and cancels every gate once, however often it was registered. */
    method CancelAllPending() returns (count: nat)
      modifies this, WaitingGates(), RunGates(), Flags()
      ensures View() == Next(old(View()), AllCancelled) && pending == map[] && runs == map[]
      ensures forall f :: f in old(Flags()) ==> f.raised
      ensures count == |old(WaitingGates() + RunGates())|
      ensures forall g :: g in old(WaitingGates() + RunGates()) ==> g.calls == old(g.calls) + [CancelledAll]
    {
      hide NoRepeats, Next;
      var waiting := CollectWaiting();
      var gates := CollectRuns(waiting);
      Clear();
      count := |gates|;
      CountMembers(gates);
      assert Members(gates) == old(WaitingGates() + RunGates());
      CancelEach(gates);
    }

    method Clear()
      modifies `pending, `runs
      ensures View() == Next(old(View()), AllCancelled) && pending == map[] && runs == map[]
    {
      pending := map[];
      runs := map[];
    }
  }

  method CancelEach(gates: seq<HitlGate>)
    requires NoRepeats(gates)
    modifies Members(gates)
    ensures forall g :: g in Members(gates) ==> g.calls == old(g.calls) + [CancelledAll]
  {
    for i := 0 to |gates|
      invariant forall k :: 0 <= k < |gates| ==>
                  gates[k].calls == if k < i then old(gates[k].calls) + [CancelledAll] else old(gates[k].calls)
    {
      gates[i].CancelAllPending();
    }
  }

  ghost predicate NoRepeats(gates: seq<HitlGate>) {
    forall i, j :: 0 <= i < j < |gates| ==> gates[i] != gates[j]
  }

  ghost function Members(gates: seq<HitlGate>): set<HitlGate> {
    set g | g in gates
  }

  method NoGates() returns (r: seq<HitlGate>)
    ensures NoRepeats(r) && Members(r) == {} && forall m: map<RequestId, HitlGate> :: GatesIn(m, {}) == {}
  {
    r := [];
  }

  lemma FlagNamed(m: Runs, id: RequestId)
    requires id in m
    ensures m[id].0 in FlagsIn(m, m.Keys)
  {
  }

  method AddNew(seen: seq<HitlGate>, gate: HitlGate) returns (r: seq<HitlGate>)
    requires NoRepeats(seen)
    ensures NoRepeats(r) && Members(r) == Members(seen) + {gate}
  {
    r := if gate in seen then seen else seen + [gate];
  }

  lemma {:induction false} CountMembers(gates: seq<HitlGate>)
    requires NoRepeats(gates)
    ensures |gates| == |Members(gates)|
  {
    if gates == [] {
      assert Members(gates) == {};
    } else {
      var front, last := gates[..|gates| - 1], gates[|gates| - 1];
      CountMembers(front);
      assert gates == front + [last];
      assert last !in front;
      assert Members(gates) == Members(front) + {last};
    }
  }

  // ------------------------------------------------------------- over whole histories

  function After(ops: seq<Op>): Registry {
    if ops == [] then NO_REQUESTS else Next(After(ops[..|ops| - 1]), ops[|ops| - 1])
  }

  function TimesTracked(ops: seq<Op>, request: RequestId, gate: HitlGate): nat {
    if ops == [] then 0
    else TimesTracked(ops[..|ops| - 1], request, gate) + if ops[|ops| - 1] == Tracked(request, gate) then 1 else 0
  }

  function TimesReached(reached: seq<(RequestId, HitlGate)>, request: RequestId, gate: HitlGate): nat {
    if reached == [] then 0
    else
      TimesReached(reached[..|reached| - 1], request, gate)
      + if reached[|reached| - 1] == (request, gate) then 1 else 0
  }

  lemma ReachedSnoc(
    reached: seq<(RequestId, HitlGate)>, last: (RequestId, HitlGate), request: RequestId, gate: HitlGate)
    ensures TimesReached(reached + [last], request, gate)
            == TimesReached(reached, request, gate) + if last == (request, gate) then 1 else 0
  {
    assert (reached + [last])[..|reached|] == reached;
  }

  function Open(s: Registry, request: RequestId, gate: HitlGate): nat {
    if request in s.open && s.open[request] == gate then 1 else 0
  }

  lemma NextReaches(s: Registry, op: Op, request: RequestId, gate: HitlGate)
    ensures var s1 := Next(s, op);
            TimesReached(s1.reached, request, gate) + Open(s1, request, gate)
            <= TimesReached(s.reached, request, gate) + Open(s, request, gate)
               + if op == Tracked(request, gate) then 1 else 0
  {
    match op {
      case Tracked(_, _) =>
      case Decide(r) =>
        if r in s.open {
          ReachedSnoc(s.reached, (r, s.open[r]), request, gate);
        }
      case Forgotten(_) =>
      case AllCancelled =>
    }
  }

  /**
   A decision reaches a gate no more often than its request was tracked for that gate, and a request that is
   still open has one decision to come: tracked once, decided at most once, and only by the gate it was tracked for.
   */
  lemma {:induction false} ReachedOncePerTrack(ops: seq<Op>, request: RequestId, gate: HitlGate)
    ensures var s := After(ops);
            TimesReached(s.reached, request, gate) + Open(s, request, gate) <= TimesTracked(ops, request, gate)
  {
    hide Next, Open;
    if ops == [] {
      NothingReached(request, gate);
    } else {
      var front, op := ops[..|ops| - 1], ops[|ops| - 1];
      ReachedOncePerTrack(front, request, gate);
      NextReaches(After(front), op, request, gate);
    }
  }

  lemma NothingReached(request: RequestId, gate: HitlGate)
    ensures TimesReached([], request, gate) + Open(NO_REQUESTS, request, gate) == 0
  {
  }

  /** What happens to a tracked request once it is decided, forgotten or cancelled: nothing more. */
  lemma {:induction false} ClosedStaysClosed(ops: seq<Op>, more: seq<Op>, request: RequestId, gate: HitlGate)
    requires request !in After(ops).open
    requires forall i :: 0 <= i < |more| ==> !(more[i].Tracked? && more[i].request == request)
    ensures request !in After(ops + more).open
    ensures TimesReached(After(ops + more).reached, request, gate) == TimesReached(After(ops).reached, request, gate)
    decreases |more|
  {
    if more == [] {
      assert ops + more == ops;
    } else {
      var front, op := more[..|more| - 1], more[|more| - 1];
      assert (ops + more)[..|ops + more| - 1] == ops + front;
      ClosedStaysClosed(ops, front, request, gate);
      var s := After(ops + front);
      if op.Decide? && op.request in s.open {
        ReachedSnoc(s.reached, (op.request, s.open[op.request]), request, gate);
      }
    }
  }

  /** The operation neither replaces nor closes this request's entry. */
  predicate Spares(op: Op, request: RequestId, gate: HitlGate) {
    match op
    case Tracked(r, _) => r != request
    case Decide(r) => r != request
    case Forgotten(g) => g != gate
    case AllCancelled => false
  }

  /** It was tracked for that gate, and nothing since has replaced or closed its entry. */
  ghost predicate Waits(ops: seq<Op>, request: RequestId, gate: HitlGate) {
    exists i :: 0 <= i < |ops| && ops[i] == Tracked(request, gate)
                && forall j :: i < j < |ops| ==> Spares(ops[j], request, gate)
  }

  predicate IsOpen(s: Registry, request: RequestId, gate: HitlGate) {
    request in s.open && s.open[request] == gate
  }

  lemma NextOpen(s: Registry, op: Op, request: RequestId, gate: HitlGate)
    ensures IsOpen(Next(s, op), request, gate)
            <==> op == Tracked(request, gate) || (IsOpen(s, request, gate) && Spares(op, request, gate))
  {
  }

  lemma WaitsOn(front: seq<Op>, op: Op, request: RequestId, gate: HitlGate)
    ensures Waits(front + [op], request, gate)
            <==> op == Tracked(request, gate) || (Waits(front, request, gate) && Spares(op, request, gate))
  {
    var ops := front + [op];
    if op == Tracked(request, gate) {
      assert ops[|front|] == op;
    } else if Waits(front, request, gate) && Spares(op, request, gate) {
      var i :| 0 <= i < |front| && front[i] == Tracked(request, gate)
               && forall j :: i < j < |front| ==> Spares(front[j], request, gate);
      assert ops[i] == front[i];
    } else if Waits(ops, request, gate) {
      var i :| 0 <= i < |ops| && ops[i] == Tracked(request, gate)
               && forall j :: i < j < |ops| ==> Spares(ops[j], request, gate);
      assert i < |front| && front[i] == ops[i];
      assert Spares(ops[|front|], request, gate);
      forall j | i < j < |front| ensures Spares(front[j], request, gate) {
        assert front[j] == ops[j];
      }
    }
  }

  /** Over any history a request is open for a gate exactly while it waits for it. */
  lemma {:induction false} OpenWhileWaiting(ops: seq<Op>, request: RequestId, gate: HitlGate)
    ensures IsOpen(After(ops), request, gate) <==> Waits(ops, request, gate)
  {
    hide Next, Waits, Spares, IsOpen;
    if ops == [] {
      NothingOpen(request, gate);
    } else {
      var front, op := ops[..|ops| - 1], ops[|ops| - 1];
      assert ops == front + [op];
      OpenWhileWaiting(front, request, gate);
      NextOpen(After(front), op, request, gate);
      WaitsOn(front, op, request, gate);
    }
  }

  lemma NothingOpen(request: RequestId, gate: HitlGate)
    ensures !IsOpen(After([]), request, gate) && !Waits([], request, gate)
  {
  }

  /** A request that waits is decided by the next decision on it: that one reaches its gate, and ends the wait. */
  lemma DecisionReaches(ops: seq<Op>, request: RequestId, gate: HitlGate)
    requires Waits(ops, request, gate)
    ensures var s, s1 := After(ops), After(ops + [Decide(request)]);
            && s1.reached == s.reached + [(request, gate)] && request !in s1.open
            && TimesReached(s1.reached, request, gate) == TimesReached(s.reached, request, gate) + 1
  {
    OpenWhileWaiting(ops, request, gate);
    assert (ops + [Decide(request)])[..|ops|] == ops;
    ReachedSnoc(After(ops).reached, (request, gate), request, gate);
  }

  /** So whatever else happens between tracking a request and deciding it, the decision gets through. */
  lemma TrackedIsReached(ops: seq<Op>, more: seq<Op>, request: RequestId, gate: HitlGate)
    requires forall i :: 0 <= i < |more| ==> Spares(more[i], request, gate)
    ensures var all := ops + [Tracked(request, gate)] + more;
            && IsOpen(After(all), request, gate)
            && TimesReached(After(all + [Decide(request)]).reached, request, gate)
               == TimesReached(After(all).reached, request, gate) + 1
  {
    hide After, TimesReached, Spares, IsOpen;
    var all := ops + [Tracked(request, gate)] + more;
    assert all[|ops|] == Tracked(request, gate);
    assert forall j :: |ops| < j < |all| ==> all[j] == more[j - |ops| - 1];
    assert Waits(all, request, gate);
    OpenWhileWaiting(all, request, gate);
    DecisionReaches(all, request, gate);
  }
}
