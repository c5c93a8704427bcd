/** The paths a session may touch: free to choose until the user has spoken, only ever added to afterwards. */
module AllowedPaths {
  import opened Options

  type Path(!new, ==)

  datatype Role = User | Other

  /** What a session holds of this; `initial` is absent when it was never set. */
  datatype Lists = Lists(initial: Option<seq<Path>>, announced: seq<Path>, pending: seq<Path>)

  function OrEmpty(o: Option<seq<Path>>): seq<Path> {
    match o
    case None => []
    case Some(paths) => paths
  }

  function KnownList(l: Lists): seq<Path> {
    OrEmpty(l.initial) + l.announced + l.pending
  }

  function Known(l: Lists): set<Path> {
    set p | p in KnownList(l)
  }

  predicate Started(messages: seq<Role>) {
    User in messages
  }

  /** The members of `target` that are not in `known`, in order and as often as they occur. */
  function Missing(target: seq<Path>, known: seq<Path>): seq<Path> {
    if target == [] then []
    else
      var rest, last := Missing(target[..|target| - 1], known), target[|target| - 1];
      if last in known then rest else rest + [last]
  }

  /** The update as a function: `None` when it would take a known path away. */
  function Update(started: bool, l: Lists, value: Option<seq<Path>>): Option<Lists> {
    if !started then Some(Lists(value, [], []))
    else if exists p :: p in KnownList(l) && p !in OrEmpty(value) then None
    else Some(l.(pending := l.pending + Missing(OrEmpty(value), KnownList(l))))
  }

  class Session {
    var messages: seq<Role>
    var lists: Lists

    constructor (messages: seq<Role>, lists: Lists)
      ensures this.messages == messages && this.lists == lists
    {
      this.messages, this.lists := messages, lists;
    }

    method ApplyAllowedPathsUpdate(value: Option<seq<Path>>) returns (ok: bool)
      modifies `lists
      ensures var r := Update(Started(messages), old(lists), value);
              ok == r.Some? && lists == if ok then r.value else old(lists)
    {
      var started := AnyUser();
      if !started {
        lists := Lists(value, [], []);
        return true;
      }
      var target, initial, announced, pending := OrEmpty(value), OrEmpty(lists.initial), lists.announced, lists.pending;
      var known := initial + announced + pending;
      for i := 0 to |known|
        invariant forall k :: 0 <= k < i ==> known[k] in target
      {
        if known[i] !in target {
          return false;
        }
      }
      for i := 0 to |target|
        invariant lists == old(lists).(pending := pending + Missing(target[..i], known))
      {
        assert target[..i + 1][..i] == target[..i];
        if target[i] !in initial && target[i] !in announced && target[i] !in pending {
          lists := lists.(pending := lists.pending + [target[i]]);
        }
      }
      assert target[..|target|] == target;
      ok := true;
    }

    method AnyUser() returns (started: bool)
      ensures started == Started(messages)
    {
      for i := 0 to |messages|
        invariant User !in messages[..i]
      {
        if messages[i] == User {
          return true;
        }
      }
      assert messages[..|messages|] == messages;
      started := false;
    }
  }

  // ------------------------------------------------------------- one update

  lemma {:induction false} MissingMeans(target: seq<Path>, known: seq<Path>)
    ensures forall p :: p in Missing(target, known) <==> p in target && p !in known
  {
    if target != [] {
      var front, last := target[..|target| - 1], target[|target| - 1];
      MissingMeans(front, known);
      assert target == front + [last];
    }
  }

  /**
   Once the user has spoken, an update is refused exactly when it leaves out a known path; otherwise the known
   paths are afterwards exactly the requested ones, and nothing but the end of the pending list has changed.
   */
  lemma UpdateMeans(l: Lists, value: Option<seq<Path>>)
    ensures var r, target := Update(true, l, value), (set p | p in OrEmpty(value));
            && (r.Some? <==> Known(l) <= target)
            && (r.Some? ==>
                  && Known(r.value) == target
                  && r.value.initial == l.initial && r.value.announced == l.announced
                  && l.pending <= r.value.pending)
  {
    var r := Update(true, l, value);
    MissingMeans(OrEmpty(value), KnownList(l));
    forall p | p in KnownList(l) ensures p in Known(l) {
    }
    if r.Some? {
      assert KnownList(r.value) == KnownList(l) + Missing(OrEmpty(value), KnownList(l));
    }
  }

  lemma {:induction false} NothingMissing(target: seq<Path>, known: seq<Path>)
    requires forall p :: p in target ==> p in known
    ensures Missing(target, known) == []
  {
    if target != [] {
      NothingMissing(target[..|target| - 1], known);
    }
  }

  /** Asking for the same again changes nothing. */
  lemma UpdateTwice(started: bool, l: Lists, value: Option<seq<Path>>)
    requires Update(started, l, value).Some?
    ensures var once := Update(started, l, value).value;
            Update(started, once, value) == Some(once)
  {
    var once := Update(started, l, value).value;
    if started {
      UpdateMeans(l, value);
      forall p | p in OrEmpty(value) ensures p in KnownList(once) {
        assert p in Known(once);
      }
      NothingMissing(OrEmpty(value), KnownList(once));
      assert once.pending + [] == once.pending;
      forall p | p in KnownList(once) ensures p in OrEmpty(value) {
        assert p in Known(once);
      }
    }
  }

  predicate NoRepeats(paths: seq<Path>) {
    forall i, j :: 0 <= i < j < |paths| ==> paths[i] != paths[j]
  }

  /** The request repeats no path that is not known already. */
  predicate RepeatsOnly(target: seq<Path>, known: seq<Path>) {
    forall i, j :: 0 <= i < j < |target| && target[i] == target[j] ==> target[i] in known
  }

  lemma NoRepeatsSnoc(paths: seq<Path>, p: Path)
    ensures NoRepeats(paths + [p]) <==> NoRepeats(paths) && p !in paths
  {
    var more := paths + [p];
    if NoRepeats(more) {
      forall i, j | 0 <= i < j < |paths| ensures paths[i] != paths[j] {
        assert more[i] != more[j];
      }
      forall i | 0 <= i < |paths| ensures paths[i] != p {
        assert more[i] != more[|paths|];
      }
    }
  }

  lemma RepeatsOnlySnoc(target: seq<Path>, p: Path, known: seq<Path>)
    ensures RepeatsOnly(target + [p], known) <==> RepeatsOnly(target, known) && (p in target ==> p in known)
  {
    var more := target + [p];
    if RepeatsOnly(more, known) {
      forall i, j | 0 <= i < j < |target| && target[i] == target[j] ensures target[i] in known {
        assert more[i] == more[j];
      }
      if i :| 0 <= i < |target| && target[i] == p {
        assert more[i] == more[|target|];
      }
    }
  }

  lemma {:induction false} MissingRepeats(target: seq<Path>, known: seq<Path>)
    ensures NoRepeats(Missing(target, known)) <==> RepeatsOnly(target, known)
  {
    hide NoRepeats, RepeatsOnly;
    if target == [] {
      NothingRepeats(known);
    } else {
      var front, last := target[..|target| - 1], target[|target| - 1];
      assert target == front + [last];
      MissingRepeats(front, known);
      MissingMeans(front, known);
      RepeatsOnlySnoc(front, last, known);
      if last !in known {
        NoRepeatsSnoc(Missing(front, known), last);
      }
    }
  }

  lemma NothingRepeats(known: seq<Path>)
    ensures NoRepeats([]) && RepeatsOnly([], known)
  {
  }

  lemma {:induction false} NoRepeatsConcat(a: seq<Path>, b: seq<Path>)
    requires forall p :: p in b ==> p !in a
    ensures NoRepeats(a + b) <==> NoRepeats(a) && NoRepeats(b)
    decreases |b|
  {
    hide NoRepeats;
    if b == [] {
      assert a + b == a;
      NothingRepeats([]);
    } else {
      var front, last := b[..|b| - 1], b[|b| - 1];
      assert b == front + [last] && a + b == (a + front) + [last];
      NoRepeatsConcat(a, front);
      NoRepeatsSnoc(a + front, last);
      NoRepeatsSnoc(front, last);
    }
  }

  /**
   Every known path is stored once, after an accepted update, if and only if it was so before and the request repeats
   no new path: newness is judged against the lists as they were when the update began.
   */
  lemma StoredOnce(l: Lists, value: Option<seq<Path>>)
    requires Update(true, l, value).Some?
    ensures NoRepeats(KnownList(Update(true, l, value).value))
            <==> NoRepeats(KnownList(l)) && RepeatsOnly(OrEmpty(value), KnownList(l))
  {
    hide NoRepeats, RepeatsOnly;
    var known, more := KnownList(l), Missing(OrEmpty(value), KnownList(l));
    assert KnownList(Update(true, l, value).value) == known + more;
    MissingMeans(OrEmpty(value), known);
    MissingRepeats(OrEmpty(value), known);
    NoRepeatsConcat(known, more);
  }

  /** An instance: a new path asked for twice in one update is stored twice. */
  lemma AskedTwiceStoredTwice(l: Lists, p: Path)
    requires KnownList(l) == []
    ensures Update(true, l, Some([p, p])) == Some(l.(pending := [p, p]))
  {
    assert [p, p][..1] == [p] && [p][..0] == [];
    assert Missing([p], []) == [p];
    assert Missing([p, p], []) == [p, p];
    assert l.pending + [p, p] == [p, p];
  }

  // ------------------------------------------------------------- over a session's life

  datatype Event = Spoke(role: Role) | Asked(value: Option<seq<Path>>)

  datatype Life = Life(messages: seq<Role>, lists: Lists)

  /** A refused update leaves everything as it was. */
  function Next(s: Life, e: Event): Life {
    match e
    case Spoke(role) => s.(messages := s.messages + [role])
    case Asked(value) =>
      match Update(Started(s.messages), s.lists, value)
      case None => s
      case Some(lists) => s.(lists := lists)
  }

  function After(s: Life, events: seq<Event>): Life {
    if events == [] then s else Next(After(s, events[..|events| - 1]), events[|events| - 1])
  }

  /** After the first user message no path is ever lost, and what was given or announced before stays as it was. */
  lemma {:induction false} NoPathIsLost(s: Life, events: seq<Event>)
    requires Started(s.messages)
    ensures var t := After(s, events);
            && Started(t.messages) && Known(s.lists) <= Known(t.lists)
            && t.lists.initial == s.lists.initial && t.lists.announced == s.lists.announced
            && s.lists.pending <= t.lists.pending
  {
    if events != [] {
      NoPathIsLost(s, events[..|events| - 1]);
      var t, e := After(s, events[..|events| - 1]), events[|events| - 1];
      if e.Asked? {
        UpdateMeans(t.lists, e.value);
      }
    }
  }

  /** What the last of these requests asks for, or what there was if none asks. */
  function LastAsked(l: Lists, events: seq<Event>): Lists {
    if events == [] then l
    else
      match events[|events| - 1]
      case Spoke(_) => LastAsked(l, events[..|events| - 1])
      case Asked(value) => Lists(value, [], [])
  }

  lemma StartedStays(s: Life, e: Event)
    ensures Started(s.messages) ==> Started(Next(s, e).messages)
  {
  }

  /** As long as the user has not spoken, the last request alone decides. */
  lemma {:induction false} LastRequestDecides(s: Life, events: seq<Event>)
    requires !Started(After(s, events).messages)
    ensures After(s, events).lists == LastAsked(s.lists, events)
  {
    if events != [] {
      StartedStays(After(s, events[..|events| - 1]), events[|events| - 1]);
      LastRequestDecides(s, events[..|events| - 1]);
    }
  }

  lemma {:induction false} AfterConcat(s: Life, a: seq<Event>, b: seq<Event>)
    ensures After(s, a + b) == After(After(s, a), b)
    decreases |b|
  {
    hide Next;
    if b == [] {
      assert a + b == a;
    } else {
      assert (a + b)[..|a + b| - 1] == a + b[..|b| - 1];
      AfterConcat(s, a, b[..|b| - 1]);
    }
  }

  /**
   A session's whole life: the user's first message fixes what the last request before it asked for, and no path of
   that is ever lost.
   */
  lemma FirstMessageFixes(s: Life, early: seq<Event>, late: seq<Event>)
    requires !Started(After(s, early).messages)
    ensures var fixed, lists := LastAsked(s.lists, early), After(s, early + [Spoke(User)] + late).lists;
            && Known(fixed) <= Known(lists)
            && lists.initial == fixed.initial && lists.announced == fixed.announced && fixed.pending <= lists.pending
  {
    hide After, Known, LastAsked;
    LastRequestDecides(s, early);
    AfterConcat(s, early, [Spoke(User)]);
    AfterConcat(s, early + [Spoke(User)], late);
    FirstMessage(After(s, early));
    NoPathIsLost(After(After(s, early), [Spoke(User)]), late);
  }

  lemma FirstMessage(s: Life)
    ensures After(s, [Spoke(User)]) == s.(messages := s.messages + [User])
  {
    assert [Spoke(User)][..0] == [];
  }
}
