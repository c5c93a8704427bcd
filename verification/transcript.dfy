/**
 The in-memory conversation that every model request is built from, and the
 grammar a provider expects of it.

 Texts are opaque, except that the four kinds of user entry the loop writes
 itself (recap, tool-format notice, hook feedback, goal feedback) can be told
 apart from what a user typed. Reasoning, attachments and tool output are not
 part of this model; a tool result is its call id.
 */
module Transcript {

  datatype Said =
    | Typed(text: string)
    | Recap
    | FormatNotice
    | HookFeedback(text: string)
    | GoalFeedback(text: string)

  type CallId = string

  datatype Entry =
    | User(said: Said)
    | Assistant(text: string, calls: seq<CallId>)
    | ToolResults(ids: seq<CallId>)

  // ---------------------------------------------------------------- grammar

  /** How a conversation currently ends; `Broken` is final. */
  datatype Tail = Blank | UserTail | ReplyTail(calls: seq<CallId>) | ResultsTail | Broken

  function Follow(t: Tail, e: Entry): Tail {
    match e
    case User(_) =>
      if t.Broken? || (t.ReplyTail? && t.calls != []) then Broken else UserTail
    case Assistant(_, calls) =>
      if t.UserTail? || t.ResultsTail? then ReplyTail(calls) else Broken
    case ToolResults(ids) =>
      if t == ReplyTail(ids) then ResultsTail else Broken
  }

  function TailFrom(t: Tail, es: seq<Entry>): Tail {
    if es == [] then t else Follow(TailFrom(t, es[..|es| - 1]), es[|es| - 1])
  }

  function TailOf(es: seq<Entry>): Tail {
    TailFrom(Blank, es)
  }

  /** The state in which a model request may be sent. */
  predicate Ready(es: seq<Entry>) {
    TailOf(es).UserTail? || TailOf(es).ResultsTail?
  }

  function Push(es: seq<Entry>, e: Entry): seq<Entry> {
    es + [e]
  }

  lemma PushTail(es: seq<Entry>, e: Entry)
    ensures TailOf(Push(es, e)) == Follow(TailOf(es), e)
  {
    assert (es + [e])[..|es|] == es;
  }

  /** What providers demand, said entry by entry. */
  ghost predicate Legal(es: seq<Entry>) {
    && (es != [] ==> es[0].User?)
    && (forall i :: 0 <= i < |es| - 1 && es[i].Assistant? && es[i].calls != [] ==>
          es[i + 1] == ToolResults(es[i].calls))
    && (forall i :: 0 <= i < |es| - 1 && es[i].Assistant? ==> !es[i + 1].Assistant?)
    && (forall i :: 0 <= i < |es| && es[i].ToolResults? ==>
          i > 0 && es[i - 1].Assistant? && es[i - 1].calls == es[i].ids)
  }

  ghost predicate Grammatical(es: seq<Entry>) {
    es != [] && Legal(es) && !es[|es| - 1].Assistant?
  }

  function EndsLike(e: Entry): Tail {
    match e
    case User(_) => UserTail
    case Assistant(_, calls) => ReplyTail(calls)
    case ToolResults(_) => ResultsTail
  }

  lemma {:induction false} TailMeaning(es: seq<Entry>)
    ensures TailOf(es) != Broken <==> Legal(es)
    ensures es != [] && Legal(es) ==> TailOf(es) == EndsLike(es[|es| - 1])
  {
    if es != [] {
      var n := |es| - 1;
      var front := es[..n];
      TailMeaning(front);
      if Legal(es) {
        assert Legal(front);
        if n > 0 {
          assert es[n - 1] == front[n - 1];
        }
      } else if Legal(front) && n > 0 {
        assert es[n - 1] == front[n - 1];
        assert TailOf(front) == EndsLike(es[n - 1]);
        if TailOf(es) != Broken {
          LegalExtends(es);
        }
      }
    }
  }

  /** A legal conversation stays legal under an entry the automaton accepts. */
  lemma LegalExtends(es: seq<Entry>)
    requires |es| > 1 && Legal(es[..|es| - 1])
    requires Follow(EndsLike(es[|es| - 2]), es[|es| - 1]) != Broken
    ensures Legal(es)
  {
    var front := es[..|es| - 1];
    forall i | 0 <= i < |es| - 1 && es[i].Assistant?
      ensures !es[i + 1].Assistant?
      ensures es[i].calls != [] ==> es[i + 1] == ToolResults(es[i].calls)
    {
      if i < |es| - 2 {
        assert es[i] == front[i] && es[i + 1] == front[i + 1];
      }
    }
    forall i | 0 <= i < |es| && es[i].ToolResults?
      ensures i > 0 && es[i - 1].Assistant? && es[i - 1].calls == es[i].ids
    {
      if i < |es| - 1 {
        assert es[i] == front[i];
        assert es[i - 1] == front[i - 1];
      }
    }
  }

  /** The automaton's `Ready` is exactly the providers' grammar. */
  lemma ReadyIffGrammatical(es: seq<Entry>)
    ensures Ready(es) <==> Grammatical(es)
  {
    TailMeaning(es);
  }

  lemma {:induction false} TailConcat(t: Tail, a: seq<Entry>, b: seq<Entry>)
    ensures TailFrom(t, a + b) == TailFrom(TailFrom(t, a), b)
    decreases |b|
  {
    if b == [] {
      assert a + b == a;
    } else {
      assert (a + b)[..|a + b| - 1] == a + b[..|b| - 1];
      TailConcat(t, a, b[..|b| - 1]);
    }
  }

  lemma {:induction false} BrokenStays(es: seq<Entry>)
    ensures TailFrom(Broken, es) == Broken
  {
    if es != [] {
      BrokenStays(es[..|es| - 1]);
    }
  }

  // -------------------------------------------------------- emergency reset

  function Users(es: seq<Entry>): nat {
    if es == [] then 0
    else Users(es[..|es| - 1]) + if es[|es| - 1].User? then 1 else 0
  }

  /** Where the last `keep` user-started turns begin; 0 when there are fewer. */
  function RecentStart(es: seq<Entry>, keep: nat): (start: nat)
    ensures start <= |es|
  {
    if keep == 0 || es == [] then |es|
    else
      var front := es[..|es| - 1];
      if !es[|es| - 1].User? then RecentStart(front, keep)
      else if keep == 1 then |es| - 1
      else RecentStart(front, keep - 1)
  }

  /** It is the start of the last `keep` user turns, whatever the scan that finds it. */
  lemma {:induction false} RecentStartMeaning(es: seq<Entry>, keep: nat)
    requires keep > 0
    ensures var start := RecentStart(es, keep);
            if Users(es) < keep then start == 0
            else start < |es| && es[start].User? && Users(es[..start]) == Users(es) - keep
  {
    if es != [] {
      var front := es[..|es| - 1];
      var rest := if es[|es| - 1].User? then keep - 1 else keep;
      if rest > 0 {
        RecentStartMeaning(front, rest);
        var start := RecentStart(front, rest);
        assert es[..start] == front[..start];
      }
    }
  }

  /** The backward scan of the original. */
  method RecentTurnStart(es: seq<Entry>, keep: nat) returns (start: nat)
    ensures start == RecentStart(es, keep)
  {
    if keep == 0 {
      return |es|;
    }
    var seen, idx := 0, |es|;
    assert es[..idx] == es;
    while idx > 0
      invariant 0 <= idx <= |es| && seen < keep
      invariant RecentStart(es, keep) == RecentStart(es[..idx], keep - seen)
    {
      assert es[..idx][..idx - 1] == es[..idx - 1];
      idx := idx - 1;
      if es[idx].User? {
        seen := seen + 1;
        if seen == keep {
          return idx;
        }
      }
    }
    return 0;
  }

  const SUMMARY: seq<Entry> := [User(Recap), Assistant("ack", [])]

  function Max(a: nat, b: nat): nat {
    if a > b then a else b
  }

  function EmergencyReset(es: seq<Entry>, keepRecentTurns: nat): seq<Entry> {
    SUMMARY + es[RecentStart(es, Max(keepRecentTurns, 3))..]
  }

  lemma {:induction false} UsersConcat(a: seq<Entry>, b: seq<Entry>)
    ensures Users(a + b) == Users(a) + Users(b)
    decreases |b|
  {
    if b == [] {
      assert a + b == a;
    } else {
      assert (a + b)[..|a + b| - 1] == a + b[..|b| - 1];
      UsersConcat(a, b[..|b| - 1]);
    }
  }

  /** `recent` is the end of `es` from the user entry on that begins its last `k` turns, or all if it has fewer. */
  predicate LastTurns(es: seq<Entry>, k: nat, recent: seq<Entry>) {
    && |recent| <= |es| && recent == es[|es| - |recent|..]
    && if Users(es) < k then recent == es else Users(recent) == k && recent != [] && recent[0].User?
  }

  /** A reset leaves the summary and then the last turns: as many as configured, and three at least. */
  lemma ResetKeepsTurns(es: seq<Entry>, keepRecentTurns: nat)
    ensures var reset, k := EmergencyReset(es, keepRecentTurns), (if keepRecentTurns >= 3 then keepRecentTurns else 3);
            && |reset| >= 2 && reset[..2] == [User(Recap), Assistant("ack", [])]
            && LastTurns(es, k, reset[2..])
  {
    hide RecentStart, Users;
    var keep := Max(keepRecentTurns, 3);
    var start := RecentStart(es, keep);
    RecentStartMeaning(es, keep);
    UsersConcat(es[..start], es[start..]);
    assert es == es[..start] + es[start..];
    var reset := EmergencyReset(es, keepRecentTurns);
    assert reset[2..] == es[start..];
    assert reset[..2] == SUMMARY;
  }

  /** The pair an LLM summary leaves behind ends with an assistant entry. */
  lemma SummaryTail()
    ensures TailOf(SUMMARY) == ReplyTail([]) && !Ready(SUMMARY)
  {
    assert SUMMARY[..1] == [User(Recap)];
    assert SUMMARY[..1][..0] == [];
    assert TailFrom(Blank, SUMMARY[..1]) == UserTail;
  }

  /** After an accepted user entry the past no longer matters. */
  lemma {:induction false} SameFromUser(t: Tail, u: Tail, es: seq<Entry>)
    requires es != [] && es[0].User?
    requires Follow(t, es[0]) == UserTail == Follow(u, es[0])
    ensures TailFrom(t, es) == TailFrom(u, es)
  {
    assert es == [es[0]] + es[1..];
    TailConcat(t, [es[0]], es[1..]);
    TailConcat(u, [es[0]], es[1..]);
    assert [es[0]][..0] == [];
  }

  /** A legal conversation accepts each of its entries where it stands. */
  lemma AcceptedInPlace(past: seq<Entry>, recent: seq<Entry>)
    requires TailOf(past + recent) != Broken && recent != [] && recent[0].User?
    ensures Follow(TailOf(past), recent[0]) == UserTail
  {
    TailConcat(Blank, past, recent);
    if Follow(TailOf(past), recent[0]) == Broken {
      assert recent == [recent[0]] + recent[1..];
      TailConcat(TailOf(past), [recent[0]], recent[1..]);
      assert [recent[0]][..0] == [];
      BrokenStays(recent[1..]);
      assert false;
    }
  }

  /** The summary pair takes the place of any past. */
  lemma SummaryStandsIn(past: seq<Entry>, recent: seq<Entry>)
    requires TailOf(past + recent) != Broken && recent != [] && recent[0].User?
    ensures TailOf(SUMMARY + recent) == TailOf(past + recent)
  {
    hide TailFrom;
    AcceptedInPlace(past, recent);
    SummaryTail();
    TailConcat(Blank, past, recent);
    TailConcat(Blank, SUMMARY, recent);
    SameFromUser(TailOf(past), ReplyTail([]), recent);
  }

  /** An emergency reset keeps a conversation ready for the next request. */
  lemma ResetKeepsReady(es: seq<Entry>, keepRecentTurns: nat)
    requires Ready(es)
    ensures Ready(EmergencyReset(es, keepRecentTurns))
    ensures TailOf(EmergencyReset(es, keepRecentTurns)) == TailOf(es)
  {
    hide TailFrom, RecentStart;
    var keep := Max(keepRecentTurns, 3);
    var start := RecentStart(es, keep);
    var past, recent := es[..start], es[start..];
    assert es == past + recent;
    ReadyMeans(es);
    RecentStartMeaning(es, keep);
    assert recent != [] && recent[0] == es[start];
    SummaryStandsIn(past, recent);
  }

  lemma ReadyMeans(es: seq<Entry>)
    requires Ready(es)
    ensures es != [] && es[0].User? && TailOf(es) != Broken
  {
    TailMeaning(es);
  }
}
