/** The discipline that keeps a height-scoped cache invisible, stated on the log of what was issued and what
    arrived. A request the cache answers at once is never in flight. */
module CacheLogs {
  import opened Wrappers
  import opened ScopedCache

  // -------------------------------------------------------------------------
  // The discipline
  // -------------------------------------------------------------------------

  function Before<V>(p: Policy, events: seq<Event<V>>, n: nat): Traffic<V>
    requires n <= |events|
  {
    After(p, events[..n])
  }

  // All that is in flight is for the cache's height.
  predicate FlyingInStep<V>(s: Traffic<V>) {
    forall id :: id in s.flying && s.flying[id].cached ==> s.flying[id].height == s.cache.height
  }

  // A request finds the cache at its own height, or moves it there.
  predicate IssueInStep<V>(p: Policy, s: Traffic<V>, e: Event<V>) {
    e.Issue? && e.request.cached ==> Entered(p, s.cache, e.request.height).height == e.request.height
  }

  predicate InStep<V>(p: Policy, events: seq<Event<V>>) {
    && (forall n :: 0 <= n <= |events| ==> FlyingInStep(Before(p, events, n)))
    && (forall n :: 0 <= n < |events| ==> IssueInStep(p, Before(p, events, n), events[n]))
  }

  predicate IsCached<V>(e: Event<V>) {
    e.Issue? && e.request.cached
  }

  predicate NeverDecreases<V>(events: seq<Event<V>>) {
    forall i, j :: 0 <= i < j < |events| && IsCached(events[i]) && IsCached(events[j]) ==>
      events[i].request.height <= events[j].request.height
  }

  // Nothing is issued for another height while something is in flight.
  predicate Overtakes<V>(s: Traffic<V>, e: Event<V>) {
    IsCached(e) && exists id :: id in s.flying && s.flying[id].cached && s.flying[id].height != e.request.height
  }

  predicate NoneOvertaken<V>(p: Policy, events: seq<Event<V>>) {
    forall n :: 0 <= n < |events| ==> !Overtakes(Before(p, events, n), events[n])
  }

  // -------------------------------------------------------------------------
  // In step, every answer is right
  // -------------------------------------------------------------------------

  ghost predicate Faithful<V>(archive: Archive<V>, events: seq<Event<V>>, n: nat, s: Traffic<V>)
    requires n <= |events|
  {
    && s.events == n
    && (forall id :: id in s.flying ==> id < n && events[id] == Issue(s.flying[id]))
    && (forall key :: key in s.cache.entries ==> s.cache.entries[key] == archive(key, s.cache.height))
  }

  lemma {:induction false} StaysFaithful<V>(p: Policy, archive: Archive<V>, events: seq<Event<V>>, n: nat)
    requires n <= |events| && Truthful(archive, events) && InStep(p, events)
    ensures Faithful(archive, events, n, Before(p, events, n))
  {
    hide Truthful, FlyingInStep, IssueInStep, Next;
    if n > 0 {
      StaysFaithful(p, archive, events, n - 1);
      AfterNext(p, events, n - 1);
      hide After;
      var s := Before(p, events, n - 1);
      assert FlyingInStep(s);
      FaithfulNext(p, archive, events, n - 1, s);
    }
  }

  lemma FaithfulNext<V>(p: Policy, archive: Archive<V>, events: seq<Event<V>>, n: nat, s: Traffic<V>)
    requires n < |events| && Truthful(archive, events) && Faithful(archive, events, n, s) && FlyingInStep(s)
    ensures Faithful(archive, events, n + 1, Next(p, s, events[n]))
  {
  }

  /** In a log that keeps in step every answer, from the cache or the network, is the archive's at the
      requested height. */
  lemma InStepIsRight<V>(p: Policy, archive: Archive<V>, events: seq<Event<V>>)
    requires Truthful(archive, events) && InStep(p, events)
    ensures AllRight(p, archive, events)
  {
    forall n: nat | n < |events|
      ensures Right(p, archive, events, n)
    {
      StaysFaithful(p, archive, events, n);
      assert IssueInStep(p, Before(p, events, n), events[n]);
      hide After, InStep;
    }
  }

  // -------------------------------------------------------------------------
  // What it asks of the callers
  // -------------------------------------------------------------------------

  // The cache's height is 0 or that of an earlier request.
  ghost predicate HeightAsked<V>(events: seq<Event<V>>, n: nat, height: nat)
    requires n <= |events|
  {
    height == 0 || exists k :: 0 <= k < n && IsCached(events[k]) && events[k].request.height == height
  }

  lemma {:induction false} HeightWasAsked<V>(p: Policy, events: seq<Event<V>>, n: nat)
    requires n <= |events|
    ensures HeightAsked(events, n, Before(p, events, n).cache.height) && Before(p, events, n).events == n
    ensures forall id :: id in Before(p, events, n).flying ==> id < n
  {
    if n > 0 {
      HeightWasAsked(p, events, n - 1);
      AfterNext(p, events, n - 1);
      hide After;
      assert IsCached(events[n - 1]) ==> HeightAsked(events, n, events[n - 1].request.height);
    }
  }

  lemma {:induction false} HeightRises<V>(events: seq<Event<V>>, m: nat, n: nat)
    requires m <= n <= |events|
    ensures Before(Rises, events, m).cache.height <= Before(Rises, events, n).cache.height
    decreases n
  {
    if m < n {
      HeightRises(events, m, n - 1);
      AfterNext(Rises, events, n - 1);
      hide After;
    }
  }

  lemma NextInStep<V>(p: Policy, s: Traffic<V>, e: Event<V>)
    requires FlyingInStep(s) && !Overtakes(s, e) && IssueInStep(p, s, e)
    ensures FlyingInStep(Next(p, s, e))
  {
  }

  lemma {:induction false} KeepsInStep<V>(p: Policy, events: seq<Event<V>>, n: nat)
    requires n <= |events| && NoneOvertaken(p, events) && (p.Rises? ==> NeverDecreases(events))
    ensures FlyingInStep(Before(p, events, n))
    ensures n < |events| ==> IssueInStep(p, Before(p, events, n), events[n])
  {
    HeightWasAsked(p, events, n);
    if n > 0 {
      KeepsInStep(p, events, n - 1);
      AfterNext(p, events, n - 1);
      assert !Overtakes(Before(p, events, n - 1), events[n - 1]);
      hide After, Next, Overtakes, NoneOvertaken;
      NextInStep(p, Before(p, events, n - 1), events[n - 1]);
    }
  }

  lemma StepsNotOvertaken<V>(p: Policy, events: seq<Event<V>>, n: nat)
    requires InStep(p, events) && n < |events|
    ensures !Overtakes(Before(p, events, n), events[n])
  {
    var s, e := Before(p, events, n), events[n];
    HeightWasAsked(p, events, n);
    AfterNext(p, events, n);
    assert FlyingInStep(Next(p, s, e)) by { assert FlyingInStep(Before(p, events, n + 1)); }
    assert IssueInStep(p, s, e);
    hide After, InStep;
    assert e.Issue? ==> forall id :: id in s.flying ==> id in Next(p, s, e).flying
                                                        && Next(p, s, e).flying[id] == s.flying[id];
  }

  lemma AtOwnHeight<V>(p: Policy, events: seq<Event<V>>, i: nat)
    requires InStep(p, events) && i < |events| && IsCached(events[i])
    ensures Before(p, events, i + 1).cache.height == events[i].request.height
  {
    AfterNext(p, events, i);
    assert IssueInStep(p, Before(p, events, i), events[i]);
    hide After, InStep;
  }

  lemma StepsNeverDecrease<V>(events: seq<Event<V>>, i: nat, j: nat)
    requires InStep(Rises, events) && i < j < |events| && IsCached(events[i]) && IsCached(events[j])
    ensures events[i].request.height <= events[j].request.height
  {
    hide InStep, Before;
    AtOwnHeight(Rises, events, i);
    AtOwnHeight(Rises, events, j);
    HeightRises(events, i + 1, j + 1);
  }

  /** In step means that nothing is issued for another height while something is in flight; and, for the
      cache cleared by rising heights, that heights never decrease besides. */
  lemma InStepMeans<V>(p: Policy, events: seq<Event<V>>)
    ensures InStep(p, events) <==> NoneOvertaken(p, events) && (p.Rises? ==> NeverDecreases(events))
  {
    hide FlyingInStep, IssueInStep, Overtakes, Before;
    if NoneOvertaken(p, events) && (p.Rises? ==> NeverDecreases(events)) {
      forall n: nat | n <= |events|
        ensures FlyingInStep(Before(p, events, n))
        ensures n < |events| ==> IssueInStep(p, Before(p, events, n), events[n])
      {
        KeepsInStep(p, events, n);
      }
    }
    if InStep(p, events) {
      forall n: nat | n < |events|
        ensures !Overtakes(Before(p, events, n), events[n])
      {
        StepsNotOvertaken(p, events, n);
      }
      if p.Rises? {
        forall i: nat, j: nat | i < j < |events| && IsCached(events[i]) && IsCached(events[j])
          ensures events[i].request.height <= events[j].request.height
        {
          StepsNeverDecrease(events, i, j);
        }
      }
    }
  }

  // -------------------------------------------------------------------------
  // Exactness: the same log under every archive
  // -------------------------------------------------------------------------

  // A log without its values: what was asked, and whether a fetch succeeded.
  datatype Move = Ask(request: Request) | Land(of: nat, success: bool)

  function Told<V>(archive: Archive<V>, moves: seq<Move>): (events: seq<Event<V>>)
    ensures |events| == |moves|
  {
    seq(|moves|, i requires 0 <= i < |moves| =>
      match moves[i]
      case Ask(r) => Issue(r)
      case Land(of, success) =>
        Arrive(of, if success && of < i && moves[of].Ask?
                   then Some(archive(moves[of].request.key, moves[of].request.height)) else None))
  }

  // The archive that answers with the height: entries are then marked with the height they were fetched for.
  function HeightOf(key: string, height: nat): nat {
    height
  }

  function Marked(moves: seq<Move>): (events: seq<Event<nat>>)
    ensures |events| == |moves|
  {
    Told(HeightOf, moves)
  }

  // Every answer is one to a request for the same height.
  ghost predicate ReadsOwnHeight(p: Policy, moves: seq<Move>) {
    AllRight(p, HeightOf, Marked(moves))
  }

  lemma ToldAt<V>(archive: Archive<V>, moves: seq<Move>, i: nat)
    requires i < |moves|
    ensures var e := Told(archive, moves)[i];
            match moves[i]
            case Ask(r) => e == Issue(r)
            case Land(of, success) =>
              e == Arrive(of, if success && of < i && moves[of].Ask?
                              then Some(archive(moves[of].request.key, moves[of].request.height)) else None)
  {
  }

  lemma ToldIsTruthful<V>(archive: Archive<V>, moves: seq<Move>)
    ensures Truthful(archive, Told(archive, moves))
  {
    forall i: nat | i < |moves|
      ensures Told(archive, moves)[i].Issue? <==> moves[i].Ask?
    {
      ToldAt(archive, moves, i);
    }
  }

  // The caches under two archives hold the same keys, for the same heights.
  ghost predicate Same<V>(archive: Archive<V>, s: Traffic<V>, marks: Traffic<nat>) {
    && s.flying == marks.flying && s.events == marks.events && s.cache.height == marks.cache.height
    && s.cache.entries.Keys == marks.cache.entries.Keys
    && forall key :: key in s.cache.entries ==> s.cache.entries[key] == archive(key, marks.cache.entries[key])
  }

  lemma SameNext<V>(p: Policy, archive: Archive<V>, moves: seq<Move>, n: nat, s: Traffic<V>, marks: Traffic<nat>)
    requires n < |moves| && Same(archive, s, marks)
    requires forall id :: id in s.flying ==> id < n && moves[id] == Ask(s.flying[id])
    ensures Same(archive, Next(p, s, Told(archive, moves)[n]), Next(p, marks, Marked(moves)[n]))
  {
    ToldAt(archive, moves, n);
    ToldAt(HeightOf, moves, n);
    hide Told;
  }

  lemma FlyingWasAsked<V>(p: Policy, archive: Archive<V>, moves: seq<Move>, n: nat)
    requires n <= |moves|
    ensures var s := Before(p, Told(archive, moves), n);
            s.events == n && forall id :: id in s.flying ==> id < n && moves[id] == Ask(s.flying[id])
  {
    if n > 0 {
      FlyingWasAsked(p, archive, moves, n - 1);
      AfterNext(p, Told(archive, moves), n - 1);
      ToldAt(archive, moves, n - 1);
      hide After, Told;
    }
  }

  lemma {:induction false} StaysSame<V>(p: Policy, archive: Archive<V>, moves: seq<Move>, n: nat)
    requires n <= |moves|
    ensures Same(archive, Before(p, Told(archive, moves), n), Before(p, Marked(moves), n))
  {
    if n > 0 {
      StaysSame(p, archive, moves, n - 1);
      FlyingWasAsked(p, archive, moves, n - 1);
      AfterNext(p, Told(archive, moves), n - 1);
      AfterNext(p, Marked(moves), n - 1);
      var s, marks := Before(p, Told(archive, moves), n - 1), Before(p, Marked(moves), n - 1);
      hide After, Told, Marked, Next, Same;
      SameNext(p, archive, moves, n - 1, s, marks);
    }
  }

  // What event n answers under any archive, and for which height it was fetched.
  lemma SameAnswer<V>(p: Policy, archive: Archive<V>, moves: seq<Move>, n: nat)
    requires n < |moves|
    ensures var answer, mark := Answered(p, Told(archive, moves), n), Answered(p, Marked(moves), n);
            && (answer.Some? <==> mark.Some?)
            && (mark.Some? ==> answer.value == (mark.value.0, archive(mark.value.0.key, mark.value.1)))
  {
    StaysSame(p, archive, moves, n);
    FlyingWasAsked(p, archive, moves, n);
    ToldAt(archive, moves, n);
    ToldAt(HeightOf, moves, n);
    hide After, Told;
  }

  // Whatever the archive holds, no answer of the log is wrong.
  ghost predicate InvisibleInLog<A(!new), V>(p: Policy, moves: seq<Move>, view: A -> Archive<V>) {
    forall held: A :: AllRight(p, view(held), Told(view(held), moves))
  }

  /** In one log the cache is invisible, whatever the archive holds, exactly when every answer is one to a
      request for the same height. */
  lemma InvisibleIffOwnHeight<A(!new), V>(p: Policy, moves: seq<Move>, view: A -> Archive<V>)
    requires TellsApart(view)
    ensures InvisibleInLog(p, moves, view) <==> ReadsOwnHeight(p, moves)
  {
    hide Told, Marked, Answered;
    if ReadsOwnHeight(p, moves) {
      forall held: A
        ensures AllRight(p, view(held), Told(view(held), moves))
      {
        forall n: nat | n < |moves|
          ensures Right(p, view(held), Told(view(held), moves), n)
        {
          SameAnswer(p, view(held), moves, n);
          assert Right(p, HeightOf, Marked(moves), n);
        }
      }
    } else {
      var n: nat :| n < |moves| && !Right(p, HeightOf, Marked(moves), n);
      var mark := Answered(p, Marked(moves), n).value.1;
      assert SomeMarks(view, mark);
      var held: A :| Marks(view(held), mark);
      SameAnswer(p, view(held), moves, n);
      assert !Right(p, view(held), Told(view(held), moves), n);
    }
  }

  // -------------------------------------------------------------------------
  // Exactness of the discipline
  // -------------------------------------------------------------------------

  // From move n on everything is asked for the height the cache then has.
  predicate SteadyFrom(p: Policy, moves: seq<Move>, n: nat) {
    forall k :: n <= k < |moves| && moves[k].Ask? && moves[k].request.cached ==>
      moves[k].request.height == Before(p, Marked(moves), k).cache.height
  }

  predicate Asks(moves: seq<Move>, keys: string -> bool) {
    forall i :: 0 <= i < |moves| && moves[i].Ask? ==> keys(moves[i].request.key)
  }

  // From move n on the log can go on like this.
  predicate GoesOn(p: Policy, moves: seq<Move>, n: nat, more: seq<Move>, keys: string -> bool)
    requires n <= |moves|
  {
    SteadyFrom(p, moves[..n] + more, n) && Asks(more, keys)
  }

  // Wherever the log stops, however it goes on steadily, no answer is wrong.
  ghost predicate SafeThroughout<A(!new), V>(p: Policy, moves: seq<Move>, keys: string -> bool, view: A -> Archive<V>) {
    forall n, more :: 0 <= n <= |moves| && GoesOn(p, moves, n, more, keys) ==>
      InvisibleInLog(p, moves[..n] + more, view)
  }

  ghost predicate OwnHeightThroughout(p: Policy, moves: seq<Move>, keys: string -> bool) {
    forall n, more :: 0 <= n <= |moves| && GoesOn(p, moves, n, more, keys) ==> ReadsOwnHeight(p, moves[..n] + more)
  }

  lemma SamePrefix(p: Policy, moves: seq<Move>, other: seq<Move>, n: nat)
    requires n <= |moves| && n <= |other| && moves[..n] == other[..n]
    ensures Before(p, Marked(moves), n) == Before(p, Marked(other), n)
    ensures n < |moves| && n < |other| && moves[n] == other[n] ==> Marked(moves)[n] == Marked(other)[n]
  {
    assert forall i :: 0 <= i < n ==> moves[i] == moves[..n][i] && other[i] == other[..n][i];
    forall i: nat | i < n
      ensures Marked(moves)[i] == Marked(other)[i]
    {
      ToldAt(HeightOf, moves, i);
      ToldAt(HeightOf, other, i);
    }
    assert Marked(moves)[..n] == Marked(other)[..n];
    if n < |moves| && n < |other| && moves[n] == other[n] {
      ToldAt(HeightOf, moves, n);
      ToldAt(HeightOf, other, n);
    }
  }

  lemma SteadyStep(p: Policy, s: Traffic<nat>, e: Event<nat>)
    requires FlyingInStep(s) && (IsCached(e) ==> e.request.height == s.cache.height)
    ensures FlyingInStep(Next(p, s, e)) && IssueInStep(p, s, e)
  {
  }

  // Both halves of keeping in step, before move m.
  predicate InStepAt(p: Policy, moves: seq<Move>, m: nat)
    requires m <= |moves|
  {
    var s := Before(p, Marked(moves), m);
    FlyingInStep(s) && (m < |moves| ==> IssueInStep(p, s, Marked(moves)[m]))
  }

  lemma StepsAgree(p: Policy, moves: seq<Move>, all: seq<Move>, n: nat, m: nat)
    requires InStep(p, Marked(moves)) && m <= n <= |moves| && n <= |all| && moves[..n] == all[..n]
    ensures FlyingInStep(Before(p, Marked(all), m)) && (m < n ==> InStepAt(p, all, m))
  {
    assert all[..m] == all[..n][..m] == moves[..n][..m] == moves[..m];
    assert m < n ==> all[m] == all[..n][m] == moves[..n][m] == moves[m];
    SamePrefix(p, moves, all, m);
    assert FlyingInStep(Before(p, Marked(moves), m));
    assert m < n ==> IssueInStep(p, Before(p, Marked(moves), m), Marked(moves)[m]);
    hide Marked, Before, FlyingInStep, IssueInStep, InStep;
  }

  lemma SteadyMove(p: Policy, moves: seq<Move>, m: nat)
    requires m < |moves| && SteadyFrom(p, moves, m) && FlyingInStep(Before(p, Marked(moves), m))
    ensures InStepAt(p, moves, m) && FlyingInStep(Before(p, Marked(moves), m + 1))
  {
    AfterNext(p, Marked(moves), m);
    ToldAt(HeightOf, moves, m);
    hide Told, After, Next, FlyingInStep, IssueInStep;
    SteadyStep(p, Before(p, Marked(moves), m), Marked(moves)[m]);
  }

  lemma {:induction false} SteadyKeepsStep(p: Policy, moves: seq<Move>, all: seq<Move>, n: nat, m: nat)
    requires InStep(p, Marked(moves)) && n <= |moves| && n <= |all| && moves[..n] == all[..n] && m <= |all|
    requires SteadyFrom(p, all, n)
    ensures FlyingInStep(Before(p, Marked(all), m)) && InStepAt(p, all, m)
    decreases m
  {
    hide Marked, Before, FlyingInStep, IssueInStep, InStep;
    if m <= n {
      StepsAgree(p, moves, all, n, m);
    } else {
      SteadyKeepsStep(p, moves, all, n, m - 1);
      SteadyLater(p, all, n, m - 1);
      SteadyMove(p, all, m - 1);
    }
    if n <= m < |all| {
      SteadyLater(p, all, n, m);
      SteadyMove(p, all, m);
    }
  }

  lemma SteadyLater(p: Policy, moves: seq<Move>, n: nat, m: nat)
    requires n <= m && SteadyFrom(p, moves, n)
    ensures SteadyFrom(p, moves, m)
  {
    hide Marked, Before;
  }

  // A request at the cache's height reads its key's entry, which is marked with another height.
  lemma StaleRead(p: Policy, moves: seq<Move>, r: Request)
    requires var s := Before(p, Marked(moves), |moves|);
             r.cached && r.height == s.cache.height
             && r.key in s.cache.entries && s.cache.entries[r.key] != r.height
    ensures SteadyFrom(p, moves + [Ask(r)], |moves|) && !ReadsOwnHeight(p, moves + [Ask(r)])
  {
    var all, n := moves + [Ask(r)], |moves|;
    assert all[..n] == moves[..n];
    SamePrefix(p, moves, all, n);
    ToldAt(HeightOf, all, n);
    hide Told, After;
    assert !Right(p, HeightOf, Marked(all), n);
  }

  // A reply that arrives after the first n moves is stored, marked with the height of its request.
  lemma Landing(p: Policy, moves: seq<Move>, n: nat, id: nat)
    requires n <= |moves| && id in Before(p, Marked(moves), n).flying
    requires Before(p, Marked(moves), n).flying[id].cached
    ensures id < n && moves[id] == Ask(Before(p, Marked(moves), n).flying[id])
    ensures var s, r := Before(p, Marked(moves), n), Before(p, Marked(moves), n).flying[id];
            var landed := moves[..n] + [Land(id, true)];
            Before(p, Marked(landed), n + 1).cache == Stored(s.cache, r, Some(r.height))
  {
    FlyingWasAsked(p, HeightOf, moves, n);
    var landed := moves[..n] + [Land(id, true)];
    assert landed[..n] == moves[..n] && landed[id] == moves[id];
    SamePrefix(p, moves, landed, n);
    AfterNext(p, Marked(landed), n);
    ToldAt(HeightOf, landed, n);
    hide Told, After, Stored;
  }

  // The reply to a request for another height than the cache's is stored, and can be read.
  lemma StaleReply(p: Policy, moves: seq<Move>, n: nat, id: nat, keys: string -> bool)
    requires n <= |moves| && id in Before(p, Marked(moves), n).flying && Asks(moves, keys)
    requires var s := Before(p, Marked(moves), n); s.flying[id].cached && s.flying[id].height != s.cache.height
    ensures !OwnHeightThroughout(p, moves, keys)
  {
    hide Before, Marked, SteadyFrom, ReadsOwnHeight;
    Landing(p, moves, n, id);
    var s := Before(p, Marked(moves), n);
    var r := Request(s.flying[id].key, s.cache.height, true);
    var landed, more := moves[..n] + [Land(id, true)], [Land(id, true), Ask(r)];
    StaleRead(p, landed, r);
    SteadyBefore(p, landed, n, r);
    assert landed + [Ask(r)] == moves[..n] + more;
    assert GoesOn(p, moves, n, more, keys);
  }

  // A reply asks for nothing.
  lemma SteadyBefore(p: Policy, moves: seq<Move>, n: nat, r: Request)
    requires |moves| == n + 1 && moves[n].Land? && SteadyFrom(p, moves + [Ask(r)], n + 1)
    ensures SteadyFrom(p, moves + [Ask(r)], n)
  {
  }

  // A request that leaves the cache at another height: it flies out of step, or it was answered with that
  // height, or the entry it read is out of step.
  lemma StaleIssue(p: Policy, moves: seq<Move>, n: nat, keys: string -> bool)
    requires n < |moves| && !IssueInStep(p, Before(p, Marked(moves), n), Marked(moves)[n]) && Asks(moves, keys)
    ensures !OwnHeightThroughout(p, moves, keys)
  {
    var s := Before(p, Marked(moves), n);
    ToldAt(HeightOf, moves, n);
    var r := moves[n].request;
    if Hit(p, s.cache, r).None? {
      AfterNext(p, Marked(moves), n);
      FlyingWasAsked(p, HeightOf, moves, n);
      hide Told, After;
      StaleReply(p, moves, n + 1, n, keys);
    } else if s.cache.entries[r.key] != r.height {
      hide Told, After;
      StaleHit(p, moves, n, keys);
    } else {
      var asked := r.(height := s.cache.height);
      var before := moves[..n];
      assert before[..n] == moves[..n];
      SamePrefix(p, moves, before, n);
      hide Told, After, SteadyFrom, ReadsOwnHeight;
      StaleRead(p, before, asked);
      assert GoesOn(p, moves, n, [Ask(asked)], keys);
    }
  }

  // The log itself, up to an answer to a request for another height.
  lemma StaleHit(p: Policy, moves: seq<Move>, n: nat, keys: string -> bool)
    requires n < |moves| && moves[n].Ask? && Marked(moves)[n] == Issue(moves[n].request)
    requires var s, r := Before(p, Marked(moves), n), moves[n].request;
             Hit(p, s.cache, r).Some? && Hit(p, s.cache, r).value != r.height
    ensures !OwnHeightThroughout(p, moves, keys)
  {
    var all := moves[..n + 1] + [];
    assert all == moves[..n + 1] && all[..n] == moves[..n];
    SamePrefix(p, moves, all, n);
    hide Told, After, Marked;
    assert !Right(p, HeightOf, Marked(all), n);
    assert GoesOn(p, moves, n + 1, [], keys);
  }

  lemma OwnHeightIffInStep(p: Policy, moves: seq<Move>, keys: string -> bool)
    requires Asks(moves, keys)
    ensures OwnHeightThroughout(p, moves, keys) <==> InStep(p, Marked(moves))
  {
    if InStep(p, Marked(moves)) {
      hide SteadyFrom, Marked, FlyingInStep, IssueInStep, Before;
      forall n, more | 0 <= n <= |moves| && GoesOn(p, moves, n, more, keys)
        ensures ReadsOwnHeight(p, moves[..n] + more)
      {
        var all := moves[..n] + more;
        assert all[..n] == moves[..n];
        forall m: nat | m <= |all|
          ensures FlyingInStep(Before(p, Marked(all), m))
          ensures m < |all| ==> IssueInStep(p, Before(p, Marked(all), m), Marked(all)[m])
        {
          SteadyKeepsStep(p, moves, all, n, m);
        }
        MarkedIsTruthful(all);
        InStepIsRight(p, HeightOf, Marked(all));
      }
    } else {
      hide OwnHeightThroughout, Marked, Before;
      if n: nat :| n <= |moves| && !FlyingInStep(Before(p, Marked(moves), n)) {
        var s := Before(p, Marked(moves), n);
        var id :| id in s.flying && s.flying[id].cached && s.flying[id].height != s.cache.height;
        StaleReply(p, moves, n, id, keys);
      } else {
        var n: nat :| n < |moves| && !IssueInStep(p, Before(p, Marked(moves), n), Marked(moves)[n]);
        StaleIssue(p, moves, n, keys);
      }
    }
  }

  lemma MarkedIsTruthful(moves: seq<Move>)
    ensures Truthful(HeightOf, Marked(moves))
  {
    ToldIsTruthful(HeightOf, moves);
  }

  /** Keeping in step is exactly what keeps the cache safe at every moment of a log. */
  lemma SafeIffInStep<A(!new), V>(p: Policy, moves: seq<Move>, keys: string -> bool, view: A -> Archive<V>)
    requires Asks(moves, keys) && TellsApart(view)
    ensures SafeThroughout(p, moves, keys, view) <==> InStep(p, Marked(moves))
  {
    hide GoesOn, InvisibleInLog, ReadsOwnHeight, InStep, Asks;
    OwnHeightIffInStep(p, moves, keys);
    forall n, more | 0 <= n <= |moves| && GoesOn(p, moves, n, more, keys)
      ensures InvisibleInLog(p, moves[..n] + more, view) <==> ReadsOwnHeight(p, moves[..n] + more)
    {
      InvisibleIffOwnHeight(p, moves[..n] + more, view);
    }
  }

  // -------------------------------------------------------------------------
  // A client that keeps its log
  // -------------------------------------------------------------------------

  lemma OneMore<V>(p: Policy, events: seq<Event<V>>, e: Event<V>)
    ensures After(p, events + [e]) == Next(p, After(p, events), e)
  {
    assert (events + [e])[..|events|] == events;
  }

  lemma IssueStaysTruthful<V>(archive: Archive<V>, events: seq<Event<V>>, r: Request)
    ensures Truthful(archive, events + [Issue(r)]) <==> Truthful(archive, events)
  {
    var log := events + [Issue(r)];
    assert forall i: nat :: i < |events| ==> log[i] == events[i];
  }

  lemma ReplyStaysTruthful<V>(archive: Archive<V>, events: seq<Event<V>>, of: nat, value: Option<V>)
    requires of < |events| && events[of].Issue?
    ensures var r := events[of].request;
            Truthful(archive, events + [Arrive(of, value)]) <==>
              Truthful(archive, events) && (value.Some? ==> value.value == archive(r.key, r.height))
  {
    var log := events + [Arrive(of, value)];
    assert forall i: nat :: i < |events| ==> log[i] == events[i];
    assert log[|events|] == Arrive(of, value);
  }

  /** While a log keeps in step, what the cache answers is the archive's at the requested height. */
  lemma HitIsRight<V>(p: Policy, archive: Archive<V>, events: seq<Event<V>>, r: Request)
    requires Truthful(archive, events + [Issue(r)]) && InStep(p, events + [Issue(r)])
    ensures var hit := Hit(p, After(p, events).cache, r); hit.Some? ==> hit.value == archive(r.key, r.height)
  {
    var log := events + [Issue(r)];
    InStepIsRight(p, archive, log);
    assert log[..|events|] == events;
    hide After, Truthful, InStep;
    assert Right(p, archive, log, |events|);
  }
}
