/** A response cache scoped to one height at a time, with fetches in flight: what src/util/archive-api.ts
    (cleared when the height rises) and the snapped authz results of src/util/archive-queries.ts (cleared
    when it differs) have in common. A reply is stored when it arrives, whatever was issued meanwhile. */
module ScopedCache {
  import opened Wrappers

  datatype Policy = Rises | Differs

  // Requests that are not `cached` neither read nor write the cache, nor do they move its height.
  datatype Request = Request(key: string, height: nat, cached: bool)

  // `of` is the position of the request among all events; no value: the fetch failed. The arrival for a
  // request the cache has answered at once changes nothing.
  datatype Event<V> = Issue(request: Request) | Arrive(of: nat, value: Option<V>)

  datatype Cache<V> = Cache(entries: map<string, V>, height: nat)

  // `events` counts the events so far, so it is the position of the next one.
  datatype Traffic<V> = Traffic(cache: Cache<V>, flying: map<nat, Request>, events: nat)

  predicate Clears(p: Policy, current: nat, height: nat) {
    if p.Rises? then height > current else height != current
  }

  function Entered<V>(p: Policy, cache: Cache<V>, height: nat): Cache<V> {
    if Clears(p, cache.height, height) then Cache(map[], height) else cache
  }

  function Hit<V>(p: Policy, cache: Cache<V>, r: Request): Option<V> {
    if r.cached && r.key in Entered(p, cache, r.height).entries
    then Some(Entered(p, cache, r.height).entries[r.key]) else None
  }

  function Stored<V>(cache: Cache<V>, r: Request, value: Option<V>): Cache<V> {
    if r.cached && value.Some? then cache.(entries := cache.entries[r.key := value.value]) else cache
  }

  function Next<V>(p: Policy, s: Traffic<V>, e: Event<V>): Traffic<V> {
    match e
    case Issue(r) =>
      Traffic(if r.cached then Entered(p, s.cache, r.height) else s.cache,
              if Hit(p, s.cache, r).Some? then s.flying else s.flying[s.events := r],
              s.events + 1)
    case Arrive(of, value) =>
      if of !in s.flying then s.(events := s.events + 1)
      else Traffic(Stored(s.cache, s.flying[of], value), s.flying - {of}, s.events + 1)
  }

  function After<V>(p: Policy, events: seq<Event<V>>): Traffic<V> {
    if events == [] then Traffic(Cache(map[], 0), map[], 0)
    else Next(p, After(p, events[..|events| - 1]), events[|events| - 1])
  }

  // The request that event n answers and what it is answered with: from the cache when it is issued,
  // from the network when its reply arrives.
  function Answered<V>(p: Policy, events: seq<Event<V>>, n: nat): Option<(Request, V)>
    requires n < |events|
  {
    var s := After(p, events[..n]);
    match events[n]
    case Issue(r) => var hit := Hit(p, s.cache, r); if hit.Some? then Some((r, hit.value)) else None
    case Arrive(of, value) => if of in s.flying && value.Some? then Some((s.flying[of], value.value)) else None
  }

  // -------------------------------------------------------------------------
  // Timetables: what is issued and arrives when, without keys and values
  // -------------------------------------------------------------------------

  datatype Slot = IssueSlot(height: nat, cached: bool) | ArriveSlot(of: nat)

  function SlotOf<V>(e: Event<V>): Slot {
    match e
    case Issue(r) => IssueSlot(r.height, r.cached)
    case Arrive(of, _) => ArriveSlot(of)
  }

  function SlotsOf<V>(events: seq<Event<V>>): (slots: seq<Slot>)
    ensures |slots| == |events|
  {
    seq(|events|, i requires 0 <= i < |events| => SlotOf(events[i]))
  }

  predicate Caches(slots: seq<Slot>, i: int) {
    0 <= i < |slots| && slots[i].IssueSlot? && slots[i].cached
  }

  // The cache's height after n slots.
  function Scope(p: Policy, slots: seq<Slot>, n: nat): nat
    requires n <= |slots|
  {
    if n == 0 then 0
    else if Caches(slots, n - 1) && Clears(p, Scope(p, slots, n - 1), slots[n - 1].height) then slots[n - 1].height
    else Scope(p, slots, n - 1)
  }

  // How often it has been cleared by then.
  function Clearings(p: Policy, slots: seq<Slot>, n: nat): nat
    requires n <= |slots|
  {
    if n == 0 then 0
    else Clearings(p, slots, n - 1)
         + if Caches(slots, n - 1) && Clears(p, Scope(p, slots, n - 1), slots[n - 1].height) then 1 else 0
  }

  // Issued before slot n, with no reply due before it; a timetable does not say which calls the cache answers.
  predicate InFlight(slots: seq<Slot>, i: int, n: int) {
    Caches(slots, i) && i < n <= |slots| && forall k :: i < k < n ==> slots[k] != ArriveSlot(i)
  }

  // Call c may read what call a stored when its reply arrived at r: the cache was not cleared in between.
  predicate ReadsBack(p: Policy, slots: seq<Slot>, a: int, r: int, c: int) {
    && InFlight(slots, a, r) && r < c && Caches(slots, c) && slots[r] == ArriveSlot(a)
    && Clearings(p, slots, c + 1) == Clearings(p, slots, r)
  }

  // What may be read back was asked for the same height.
  predicate Timely(p: Policy, slots: seq<Slot>) {
    forall a, r, c :: 0 <= a < r < c < |slots| && ReadsBack(p, slots, a, r, c) ==> slots[a].height == slots[c].height
  }

  type Archive<!V> = (string, nat) -> V

  // A reply carries the archive's answer to the request it belongs to.
  predicate Truthful<V(==)>(archive: Archive<V>, events: seq<Event<V>>) {
    forall i :: 0 <= i < |events| && events[i].Arrive? && events[i].value.Some?
                && events[i].of < i && events[events[i].of].Issue? ==>
      var r := events[events[i].of].request;
      events[i].value.value == archive(r.key, r.height)
  }

  predicate Right<V(==)>(p: Policy, archive: Archive<V>, events: seq<Event<V>>, n: nat)
    requires n < |events|
  {
    var answer := Answered(p, events, n);
    answer.Some? ==> answer.value.1 == archive(answer.value.0.key, answer.value.0.height)
  }

  // -------------------------------------------------------------------------
  // What a run keeps
  // -------------------------------------------------------------------------

  // An entry after n events is the reply that arrived at r, to request a, with no clearing since.
  ghost predicate StoredBy<V>(p: Policy, archive: Archive<V>, slots: seq<Slot>, n: nat, key: string, value: V,
                              a: int, r: int)
    requires n <= |slots|
  {
    && 0 <= a < r < n && InFlight(slots, a, r) && slots[r] == ArriveSlot(a)
    && Clearings(p, slots, r) == Clearings(p, slots, n)
    && value == archive(key, slots[a].height)
  }

  ghost predicate HasSource<V>(p: Policy, archive: Archive<V>, slots: seq<Slot>, n: nat, key: string, value: V)
    requires n <= |slots|
  {
    exists a, r :: StoredBy(p, archive, slots, n, key, value, a, r)
  }

  ghost predicate EntriesTraced<V>(p: Policy, archive: Archive<V>, slots: seq<Slot>, n: nat, cache: Cache<V>)
    requires n <= |slots|
  {
    forall key :: key in cache.entries ==> HasSource(p, archive, slots, n, key, cache.entries[key])
  }

  ghost predicate FlyingTraced<V>(events: seq<Event<V>>, n: nat, flying: map<nat, Request>) {
    forall id :: id in flying ==>
      && id < n <= |events| && events[id] == Issue(flying[id])
      && (flying[id].cached ==> InFlight(SlotsOf(events), id, n))
  }

  ghost predicate Traced<V>(p: Policy, archive: Archive<V>, events: seq<Event<V>>, n: nat, s: Traffic<V>)
    requires n <= |events|
  {
    && s.events == n && s.cache.height == Scope(p, SlotsOf(events), n)
    && FlyingTraced(events, n, s.flying)
    && EntriesTraced(p, archive, SlotsOf(events), n, s.cache)
  }

  lemma AfterNext<V>(p: Policy, events: seq<Event<V>>, n: nat)
    requires n < |events|
    ensures After(p, events[..n + 1]) == Next(p, After(p, events[..n]), events[n])
  {
    assert events[..n + 1][..n] == events[..n];
  }

  lemma EntriesStay<V>(p: Policy, archive: Archive<V>, slots: seq<Slot>, n: nat, cache: Cache<V>)
    requires n < |slots| && EntriesTraced(p, archive, slots, n, cache)
    requires Clearings(p, slots, n + 1) == Clearings(p, slots, n)
    ensures EntriesTraced(p, archive, slots, n + 1, cache)
  {
    hide Clearings, InFlight;
    forall key | key in cache.entries
      ensures HasSource(p, archive, slots, n + 1, key, cache.entries[key])
    {
      var a, r :| StoredBy(p, archive, slots, n, key, cache.entries[key], a, r);
      assert StoredBy(p, archive, slots, n + 1, key, cache.entries[key], a, r);
    }
  }

  lemma FlyingStay<V>(events: seq<Event<V>>, n: nat, flying: map<nat, Request>, landed: set<nat>)
    requires n < |events| && FlyingTraced(events, n, flying)
    requires SlotsOf(events)[n].ArriveSlot? ==> SlotsOf(events)[n].of in landed
    ensures FlyingTraced(events, n + 1, flying - landed)
  {
  }

  lemma {:induction false} KeepsTrace<V>(p: Policy, archive: Archive<V>, events: seq<Event<V>>, n: nat)
    requires n <= |events| && Truthful(archive, events)
    ensures Traced(p, archive, events, n, After(p, events[..n]))
  {
    if n > 0 {
      KeepsTrace(p, archive, events, n - 1);
      AfterNext(p, events, n - 1);
      var s := After(p, events[..n - 1]);
      hide After, Traced, Next, Truthful;
      match events[n - 1] {
        case Issue(r) => TraceIssue(p, archive, events, n - 1, s);
        case Arrive(_, _) => TraceArrive(p, archive, events, n - 1, s);
      }
    }
  }

  lemma TraceIssue<V>(p: Policy, archive: Archive<V>, events: seq<Event<V>>, n: nat, s: Traffic<V>)
    requires n < |events| && events[n].Issue? && Traced(p, archive, events, n, s)
    ensures Traced(p, archive, events, n + 1, Next(p, s, events[n]))
  {
    hide InFlight, HasSource;
    var slots, r := SlotsOf(events), events[n].request;
    assert slots[n] == IssueSlot(r.height, r.cached);
    FlyingStay(events, n, s.flying, {});
    assert s.flying - {} == s.flying;
    if r.cached {
      FlyingFirst(slots, n);
    }
    if !(r.cached && Clears(p, s.cache.height, r.height)) {
      EntriesStay(p, archive, slots, n, s.cache);
    }
  }

  lemma FlyingFirst(slots: seq<Slot>, n: nat)
    requires Caches(slots, n)
    ensures InFlight(slots, n, n + 1)
  {
  }

  lemma TraceArrive<V>(p: Policy, archive: Archive<V>, events: seq<Event<V>>, n: nat, s: Traffic<V>)
    requires n < |events| && events[n].Arrive? && Truthful(archive, events) && Traced(p, archive, events, n, s)
    ensures Traced(p, archive, events, n + 1, Next(p, s, events[n]))
  {
    hide InFlight, HasSource;
    var slots, of, value := SlotsOf(events), events[n].of, events[n].value;
    assert slots[n] == ArriveSlot(of);
    assert Scope(p, slots, n + 1) == Scope(p, slots, n) && Clearings(p, slots, n + 1) == Clearings(p, slots, n);
    hide Scope, Clearings;
    FlyingStay(events, n, s.flying, {of});
    EntriesStay(p, archive, slots, n, s.cache);
    if of in s.flying {
      assert s.flying[of].cached && value.Some? ==>
               HasSource(p, archive, slots, n + 1, s.flying[of].key, value.value) by {
        if s.flying[of].cached && value.Some? {
          ReplyIsSource(p, archive, events, n, s.flying[of]);
        }
      }
      hide Truthful, SlotsOf;
    } else {
      assert s.flying - {of} == s.flying;
    }
  }

  lemma ReplyIsSource<V>(p: Policy, archive: Archive<V>, events: seq<Event<V>>, n: nat, r: Request)
    requires n < |events| && events[n].Arrive? && events[n].value.Some? && Truthful(archive, events)
    requires events[n].of < n && events[events[n].of] == Issue(r) && InFlight(SlotsOf(events), events[n].of, n)
    ensures HasSource(p, archive, SlotsOf(events), n + 1, r.key, events[n].value.value)
  {
    assert StoredBy(p, archive, SlotsOf(events), n + 1, r.key, events[n].value.value, events[n].of, n);
  }

  lemma TimelyIsRight<V>(p: Policy, archive: Archive<V>, events: seq<Event<V>>, n: nat)
    requires n < |events| && Truthful(archive, events) && Timely(p, SlotsOf(events))
    ensures Right(p, archive, events, n)
  {
    KeepsTrace(p, archive, events, n);
    var s, slots := After(p, events[..n]), SlotsOf(events);
    hide After;
    if events[n].Issue? && Hit(p, s.cache, events[n].request).Some? {
      var r := events[n].request;
      assert HasSource(p, archive, slots, n, r.key, s.cache.entries[r.key]);
      var a, at :| StoredBy(p, archive, slots, n, r.key, s.cache.entries[r.key], a, at);
      assert slots[n] == IssueSlot(r.height, r.cached);
      assert ReadsBack(p, slots, a, at, n);
    }
  }

  // -------------------------------------------------------------------------
  // A run that is not timely can be answered wrongly
  // -------------------------------------------------------------------------

  // Answers at one height that differ from those at all others.
  ghost predicate Marks<V>(archive: Archive<V>, height: nat) {
    forall key: string, h: nat :: h != height ==> archive(key, h) != archive(key, height)
  }

  // What is held decides what is answered, and some content marks each height.
  ghost predicate TellsApart<A(!new), V>(view: A -> Archive<V>) {
    forall height: nat :: SomeMarks(view, height)
  }

  ghost predicate SomeMarks<A(!new), V>(view: A -> Archive<V>, height: nat) {
    exists held: A :: Marks(view(held), height)
  }

  // Requests a and c ask for the wanted key, all others for another; every fetch succeeds.
  datatype Plot = Plot(a: nat, c: nat, wanted: string, other: string) {
    function KeyOf(i: nat): string {
      if i == a || i == c then wanted else other
    }
  }

  function Scenario<V>(slots: seq<Slot>, plot: Plot, archive: Archive<V>): (events: seq<Event<V>>)
    ensures |events| == |slots|
  {
    seq(|slots|, i requires 0 <= i < |slots| =>
      match slots[i]
      case IssueSlot(height, cached) => Issue(Request(plot.KeyOf(i), height, cached))
      case ArriveSlot(of) =>
        Arrive(of, if of < |slots| && slots[of].IssueSlot? then Some(archive(plot.KeyOf(of), slots[of].height))
                   else None))
  }

  // Until request c is issued only request a is in flight for the wanted key.
  ghost predicate Alone(slots: seq<Slot>, plot: Plot, n: nat, flying: map<nat, Request>) {
    forall id :: id in flying ==>
      && id < n <= |slots| && slots[id] == IssueSlot(flying[id].height, flying[id].cached)
      && (flying[id].key == plot.wanted <==> id == plot.a)
  }

  // The wanted key: missing until a's reply arrives at r, then what a was told.
  ghost predicate Staged<V>(p: Policy, slots: seq<Slot>, told: V, plot: Plot, r: nat, n: nat, s: Traffic<V>)
    requires n <= |slots|
  {
    && s.events == n && s.cache.height == Scope(p, slots, n)
    && Alone(slots, plot, n, s.flying)
    && (n <= r ==> plot.wanted !in s.cache.entries && (n > plot.a ==> plot.a in s.flying))
    && (n > r ==> plot.wanted in s.cache.entries && s.cache.entries[plot.wanted] == told)
  }

  lemma {:induction false} ClearingsGrow(p: Policy, slots: seq<Slot>, m: nat, n: nat)
    requires m <= n <= |slots|
    ensures Clearings(p, slots, m) <= Clearings(p, slots, n)
    ensures Clearings(p, slots, m) == Clearings(p, slots, n) ==> Scope(p, slots, m) == Scope(p, slots, n)
    decreases n
  {
    if m < n {
      ClearingsGrow(p, slots, m, n - 1);
    }
  }

  lemma NotClearedMeanwhile(p: Policy, slots: seq<Slot>, a: nat, r: nat, c: nat, n: nat)
    requires ReadsBack(p, slots, a, r, c) && r <= n <= c
    ensures Caches(slots, n) ==> !Clears(p, Scope(p, slots, n), slots[n].height)
    ensures Scope(p, slots, n + 1) == Scope(p, slots, n)
  {
    ClearingsGrow(p, slots, r, n);
    ClearingsGrow(p, slots, n + 1, c + 1);
    assert Clearings(p, slots, n + 1) == Clearings(p, slots, n);
  }

  lemma StageIssue<V>(p: Policy, slots: seq<Slot>, told: V, plot: Plot, r: nat, n: nat, s: Traffic<V>)
    requires n < plot.c < |slots| && plot.wanted != plot.other && plot.a < r < plot.c && slots[n].IssueSlot?
    requires Staged(p, slots, told, plot, r, n, s)
    requires n >= r ==> Caches(slots, n) ==> !Clears(p, Scope(p, slots, n), slots[n].height)
    requires slots[r].ArriveSlot?
    ensures var request := Request(plot.KeyOf(n), slots[n].height, slots[n].cached);
            Staged(p, slots, told, plot, r, n + 1, Next(p, s, Issue(request)))
  {
    var clears := Caches(slots, n) && Clears(p, Scope(p, slots, n), slots[n].height);
    assert Scope(p, slots, n + 1) == if clears then slots[n].height else Scope(p, slots, n);
    var request := Request(plot.KeyOf(n), slots[n].height, slots[n].cached);
    AloneIssue(slots, plot, n, s.flying, request);
    hide Scope, Alone;
  }

  lemma AloneIssue(slots: seq<Slot>, plot: Plot, n: nat, flying: map<nat, Request>, request: Request)
    requires n < plot.c && n < |slots| && plot.wanted != plot.other && Alone(slots, plot, n, flying)
    requires slots[n] == IssueSlot(request.height, request.cached) && request.key == plot.KeyOf(n)
    ensures Alone(slots, plot, n + 1, flying) && Alone(slots, plot, n + 1, flying[n := request])
  {
  }

  lemma StageArrive<V>(p: Policy, slots: seq<Slot>, told: V, plot: Plot, r: nat, n: nat, s: Traffic<V>,
                       value: Option<V>)
    requires n < plot.c < |slots| && plot.wanted != plot.other && r < plot.c && InFlight(slots, plot.a, r)
    requires slots[n].ArriveSlot? && slots[r] == ArriveSlot(plot.a) && Staged(p, slots, told, plot, r, n, s)
    requires slots[n].of == plot.a ==> value == Some(told)
    ensures Staged(p, slots, told, plot, r, n + 1, Next(p, s, Arrive(slots[n].of, value)))
  {
    assert plot.a < n < r ==> slots[n].of != plot.a;
    assert Scope(p, slots, n + 1) == Scope(p, slots, n);
    hide Scope, InFlight;
  }

  lemma {:induction false} Stages<V>(p: Policy, slots: seq<Slot>, archive: Archive<V>, plot: Plot, r: nat, n: nat)
    requires n <= plot.c < |slots| && plot.wanted != plot.other && ReadsBack(p, slots, plot.a, r, plot.c)
    ensures var told := archive(plot.wanted, slots[plot.a].height);
            Staged(p, slots, told, plot, r, n, After(p, Scenario(slots, plot, archive)[..n]))
  {
    assert slots[plot.a].IssueSlot?;
    hide Staged, ReadsBack, Next, Scenario, InFlight, Clearings, Scope;
    if n > 0 {
      Stages(p, slots, archive, plot, r, n - 1);
      hide After;
      var events := Scenario(slots, plot, archive);
      AfterNext(p, events, n - 1);
      StageNext(p, slots, archive, plot, r, n - 1, After(p, events[..n - 1]));
    }
  }

  lemma FlyingIsCached(slots: seq<Slot>, i: int, n: int)
    requires InFlight(slots, i, n)
    ensures Caches(slots, i) && i < n <= |slots|
  {
  }

  lemma StageNext<V>(p: Policy, slots: seq<Slot>, archive: Archive<V>, plot: Plot, r: nat, n: nat, s: Traffic<V>)
    requires n < plot.c < |slots| && plot.wanted != plot.other && ReadsBack(p, slots, plot.a, r, plot.c)
    requires Staged(p, slots, archive(plot.wanted, slots[plot.a].height), plot, r, n, s)
    ensures Staged(p, slots, archive(plot.wanted, slots[plot.a].height), plot, r, n + 1,
                   Next(p, s, Scenario(slots, plot, archive)[n]))
  {
    hide Scope, Clearings, InFlight, Staged, Next, Clears, Scenario;
    FlyingIsCached(slots, plot.a, r);
    ScenarioAt(slots, plot, archive, n);
    if n >= r {
      NotClearedMeanwhile(p, slots, plot.a, r, plot.c, n);
    }
    var e, told := Scenario(slots, plot, archive)[n], archive(plot.wanted, slots[plot.a].height);
    match slots[n] {
      case IssueSlot(height, cached) =>
        StageIssue(p, slots, told, plot, r, n, s);
      case ArriveSlot(of) =>
        StageArrive(p, slots, told, plot, r, n, s, e.value);
    }
  }

  lemma ScenarioAt<V>(slots: seq<Slot>, plot: Plot, archive: Archive<V>, i: nat)
    requires i < |slots|
    ensures var e := Scenario(slots, plot, archive)[i];
            match slots[i]
            case IssueSlot(height, cached) => e == Issue(Request(plot.KeyOf(i), height, cached))
            case ArriveSlot(of) =>
              e.Arrive? && e.of == of
              && (of < |slots| && slots[of].IssueSlot? ==> e.value == Some(archive(plot.KeyOf(of), slots[of].height)))
  {
  }

  lemma ScenarioFits<V>(slots: seq<Slot>, plot: Plot, archive: Archive<V>)
    ensures var events := Scenario(slots, plot, archive);
            SlotsOf(events) == slots && Truthful(archive, events)
  {
    var events := Scenario(slots, plot, archive);
    forall i | 0 <= i < |slots|
      ensures SlotsOf(events)[i] == slots[i]
    {
      assert SlotsOf(events)[i] == SlotOf(events[i]);
    }
  }

  lemma ClashIsWrong<V>(p: Policy, slots: seq<Slot>, plot: Plot, r: nat, archive: Archive<V>)
    requires plot.wanted != plot.other && plot.a < r < plot.c < |slots|
    requires ReadsBack(p, slots, plot.a, r, plot.c)
    requires archive(plot.wanted, slots[plot.a].height) != archive(plot.wanted, slots[plot.c].height)
    ensures !Right(p, archive, Scenario(slots, plot, archive), plot.c)
  {
    Stages(p, slots, archive, plot, r, plot.c);
    NotClearedMeanwhile(p, slots, plot.a, r, plot.c, plot.c);
    ScenarioAt(slots, plot, archive, plot.c);
    hide After, Scenario, Clearings, Scope, InFlight;
    var events, wanted := Scenario(slots, plot, archive), Request(plot.wanted, slots[plot.c].height, true);
    assert events[plot.c] == Issue(wanted);
    assert Answered(p, events, plot.c) == Some((wanted, archive(plot.wanted, slots[plot.a].height)));
  }

  predicate Askable<V>(events: seq<Event<V>>, keys: string -> bool) {
    forall i :: 0 <= i < |events| && events[i].Issue? ==> keys(events[i].request.key)
  }

  lemma ScenarioAsks<V>(slots: seq<Slot>, plot: Plot, archive: Archive<V>, keys: string -> bool)
    requires keys(plot.wanted) && keys(plot.other)
    ensures Askable(Scenario(slots, plot, archive), keys)
  {
    var events := Scenario(slots, plot, archive);
    forall i: nat | i < |slots| && events[i].Issue?
      ensures keys(events[i].request.key)
    {
      ScenarioAt(slots, plot, archive, i);
    }
  }

  // Whatever the archive holds and whichever of the keys are asked for, no answer of the run is wrong.
  ghost predicate Invisible<A(!new), V(!new)>(p: Policy, slots: seq<Slot>, keys: string -> bool,
                                              view: A -> Archive<V>)
  {
    forall held: A, events: seq<Event<V>> ::
      SlotsOf(events) == slots && Askable(events, keys) && Truthful(view(held), events) ==>
        AllRight(p, view(held), events)
  }

  ghost predicate AllRight<V>(p: Policy, archive: Archive<V>, events: seq<Event<V>>) {
    forall n :: 0 <= n < |events| ==> Right(p, archive, events, n)
  }

  lemma TimelyIsAllRight<V>(p: Policy, archive: Archive<V>, events: seq<Event<V>>)
    requires Truthful(archive, events) && Timely(p, SlotsOf(events))
    ensures AllRight(p, archive, events)
  {
    hide Right, Truthful, Timely;
    forall n: nat | n < |events|
      ensures Right(p, archive, events, n)
    {
      TimelyIsRight(p, archive, events, n);
    }
  }

  // A run that is not timely, played so that its clash shows.
  lemma UntimelyIsWrong(p: Policy, slots: seq<Slot>) returns (a: nat, r: nat, c: nat)
    requires !Timely(p, slots)
    ensures a < r < c < |slots| && ReadsBack(p, slots, a, r, c) && slots[a].height != slots[c].height
  {
    a, r, c :| 0 <= a < r < c < |slots| && ReadsBack(p, slots, a, r, c) && slots[a].height != slots[c].height;
  }

  /** The cache is invisible in exactly the timely runs: those in which whatever may be read back was
      asked for the same height. */
  lemma InvisibleIffTimely<A(!new), V(!new)>(p: Policy, slots: seq<Slot>, keys: string -> bool, view: A -> Archive<V>,
                                             wanted: string, other: string)
    requires TellsApart(view) && wanted != other && keys(wanted) && keys(other)
    ensures Invisible(p, slots, keys, view) <==> Timely(p, slots)
  {
    if Timely(p, slots) {
      forall held: A, events: seq<Event<V>>
        | SlotsOf(events) == slots && Askable(events, keys) && Truthful(view(held), events)
        ensures AllRight(p, view(held), events)
      {
        TimelyIsAllRight(p, view(held), events);
      }
    } else {
      var a, r, c := UntimelyIsWrong(p, slots);
      assert SomeMarks(view, slots[a].height);
      var held: A :| Marks(view(held), slots[a].height);
      var plot := Plot(a, c, wanted, other);
      ClashIsWrong(p, slots, plot, r, view(held));
      ScenarioFits(slots, plot, view(held));
      ScenarioAsks(slots, plot, view(held), keys);
      hide Right, Truthful, ReadsBack, Scenario, SlotsOf, Askable;
      assert !AllRight(p, view(held), Scenario(slots, plot, view(held)));
    }
  }
}
