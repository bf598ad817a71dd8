/** The archive node client: a response cache scoped to one height, and a bounded retry loop in front
    of the network: src/util/archive-api.ts. */
module ArchiveApi {
  import opened Wrappers
  import S = ScopedCache
  import L = CacheLogs

  type Json = string

  // What one fetch comes back with. An error body is the gateway's gRPC envelope, or anything else;
  // a timeout, a reset or a body that does not parse is a network error.
  datatype Reply =
    | Success(data: Json)
    | HttpError(status: nat, envelope: bool, heightInFuture: bool)
    | NetworkError

  datatype Answer = Data(data: Json) | Rejected | Exhausted

  const RETRIES := 3

  predicate RetriableStatus(status: nat) {
    status == 429 || status == 502 || status == 503 || status == 504
  }

  predicate Retriable(r: Reply) {
    match r
    case Success(_) => false
    case HttpError(status, envelope, heightInFuture) =>
      if status == 500 then !envelope || heightInFuture else RetriableStatus(status)
    case NetworkError => true
  }

  // One call, with what its first fetch and each retry would meet.
  datatype Call = Call(path: string, height: nat, bypassCache: bool, replies: seq<Reply>)

  predicate Complete(c: Call) {
    |c.replies| == RETRIES + 1
  }

  // -------------------------------------------------------------------------
  // The retry loop
  // -------------------------------------------------------------------------

  function Fetch(replies: seq<Reply>): Answer
    requires replies != []
  {
    match replies[0]
    case Success(data) => Data(data)
    case _ =>
      if !Retriable(replies[0]) then Rejected
      else if |replies| == 1 then Exhausted
      else Fetch(replies[1..])
  }

  // Too many requests, a gateway that is down, a bare server error, an archive behind the height, a lost network:
  // what may go better the next time.
  predicate Transient(r: Reply) {
    || r.NetworkError?
    || (r.HttpError? && r.status in {429, 502, 503, 504})
    || (r.HttpError? && r.status == 500 && (r.envelope ==> r.heightInFuture))
  }

  // The loop stops at fetch i: everything before it was worth retrying.
  predicate StopsAt(replies: seq<Reply>, i: int) {
    && 0 <= i < |replies|
    && !Transient(replies[i])
    && forall j :: 0 <= j < i ==> Transient(replies[j])
  }

  /** The answer is the first reply not worth retrying, data or rejection, and there is none exactly
      when every attempt was worth retrying. */
  lemma {:induction false} FetchStopsAtFirst(replies: seq<Reply>)
    requires replies != []
    ensures Fetch(replies).Exhausted? <==> forall j :: 0 <= j < |replies| ==> Transient(replies[j])
    ensures forall i :: StopsAt(replies, i) ==>
              Fetch(replies) == if replies[i].Success? then Data(replies[i].data) else Rejected
  {
    if Retriable(replies[0]) && |replies| > 1 {
      FetchStopsAtFirst(replies[1..]);
      assert forall j :: 1 <= j < |replies| ==> replies[j] == replies[1..][j - 1];
      forall i | StopsAt(replies, i)
        ensures StopsAt(replies[1..], i - 1) && i >= 1
      {
      }
    }
  }

  /** A call gives up after its fourth fetch and no sooner. */
  lemma FourFetches(c: Call)
    requires Complete(c)
    ensures |c.replies| == 4
    ensures Fetch(c.replies).Exhausted? <==>
              Transient(c.replies[0]) && Transient(c.replies[1]) && Transient(c.replies[2]) && Transient(c.replies[3])
  {
    FetchStopsAtFirst(c.replies);
    hide Fetch, Transient;
  }

  // -------------------------------------------------------------------------
  // The cache in front of it
  // -------------------------------------------------------------------------

  type Cache = S.Cache<Json>

  const EmptyCache: Cache := S.Cache(map[], 0)

  function CleanedUp(s: Cache, height: nat): Cache {
    S.Entered(S.Rises, s, height)
  }

  function Ask(s: Cache, c: Call): (r: (Cache, Answer))
    requires Complete(c)
  {
    if c.bypassCache then (s, Fetch(c.replies))
    else
      var t := CleanedUp(s, c.height);
      if c.path in t.entries then (t, Data(t.entries[c.path]))
      else
        var answer := Fetch(c.replies);
        (if answer.Data? then t.(entries := t.entries[c.path := answer.data]) else t, answer)
  }

  predicate AllComplete(calls: seq<Call>) {
    forall i :: 0 <= i < |calls| ==> Complete(calls[i])
  }

  function CacheAfter(calls: seq<Call>): Cache
    requires AllComplete(calls)
  {
    if calls == [] then EmptyCache
    else Ask(CacheAfter(calls[..|calls| - 1]), calls[|calls| - 1]).0
  }

  // The answer to call i, after all calls before it.
  function AnswerTo(calls: seq<Call>, i: nat): Answer
    requires AllComplete(calls) && i < |calls|
  {
    Ask(CacheAfter(calls[..i]), calls[i]).1
  }

  // -------------------------------------------------------------------------
  // Invisibility when calls do not overlap
  // -------------------------------------------------------------------------

  // The archive's view at a height is immutable.
  type Archive = (string, nat) -> Json

  predicate Truthful(archive: Archive, c: Call) {
    forall i :: 0 <= i < |c.replies| && c.replies[i].Success? ==> c.replies[i].data == archive(c.path, c.height)
  }

  predicate AllTruthful(archive: Archive, calls: seq<Call>) {
    forall i :: 0 <= i < |calls| ==> Truthful(archive, calls[i])
  }

  // Heights never decrease, calls that bypass the cache aside.
  predicate Forward(calls: seq<Call>) {
    forall i, j :: 0 <= i < j < |calls| && !calls[i].bypassCache && !calls[j].bypassCache ==>
      calls[i].height <= calls[j].height
  }

  predicate Right(archive: Archive, calls: seq<Call>, i: nat)
    requires AllComplete(calls) && i < |calls|
  {
    AnswerTo(calls, i).Data? ==> AnswerTo(calls, i).data == archive(calls[i].path, calls[i].height)
  }

  lemma {:induction false} FetchTruthful(archive: Archive, c: Call, replies: seq<Reply>)
    requires replies != []
    requires forall i :: 0 <= i < |replies| && replies[i].Success? ==> replies[i].data == archive(c.path, c.height)
    ensures Fetch(replies).Data? ==> Fetch(replies).data == archive(c.path, c.height)
  {
    if |replies| > 1 {
      FetchTruthful(archive, c, replies[1..]);
    }
  }

  // Every entry is the archive's at the cache's height, which is that of the last call not bypassing it.
  predicate Fresh(archive: Archive, calls: seq<Call>, s: Cache) {
    && (forall p :: p in s.entries ==> s.entries[p] == archive(p, s.height))
    && (forall i :: 0 <= i < |calls| && !calls[i].bypassCache ==> calls[i].height <= s.height)
    && (s.height == 0 || exists i :: 0 <= i < |calls| && !calls[i].bypassCache && calls[i].height == s.height)
  }

  lemma {:induction false} CacheStaysFresh(archive: Archive, calls: seq<Call>)
    requires AllComplete(calls) && AllTruthful(archive, calls) && Forward(calls)
    ensures Fresh(archive, calls, CacheAfter(calls))
  {
    if calls != [] {
      var init, c := calls[..|calls| - 1], calls[|calls| - 1];
      assert Truthful(archive, c);
      FetchTruthful(archive, c, c.replies);
      var s, after := CacheAfter(init), CacheAfter(calls);
      assert after == Ask(s, c).0;
      hide Fetch, CacheAfter, Truthful, Complete;
      CacheStaysFresh(archive, init);
      if c.bypassCache {
        assert after == s;
      } else {
        assert s.height <= c.height;
        assert after.height == c.height == calls[|calls| - 1].height;
      }
    }
  }

  /** With one call at a time the cache is invisible on every run whose heights never decrease: every answer
      is the archive's at the requested height, with bypassing calls at any height interleaved anywhere. */
  lemma CacheInvisible(archive: Archive, calls: seq<Call>, i: nat)
    requires AllComplete(calls) && AllTruthful(archive, calls) && Forward(calls) && i < |calls|
    ensures Right(archive, calls, i)
  {
    CacheStaysFresh(archive, calls[..i]);
    FetchTruthful(archive, calls[i], calls[i].replies);
    assert Truthful(archive, calls[i]);
    var s, c := CacheAfter(calls[..i]), calls[i];
    hide Fetch, CacheAfter, Truthful;
  }

  // The heights of a run and which of them bypass the cache, without what was asked or answered.
  datatype Slot = Slot(height: nat, bypassCache: bool)

  function SlotsOf(calls: seq<Call>): seq<Slot> {
    seq(|calls|, i requires 0 <= i < |calls| => Slot(calls[i].height, calls[i].bypassCache))
  }

  predicate ForwardSlots(slots: seq<Slot>) {
    forall i, j :: 0 <= i < j < |slots| && !slots[i].bypassCache && !slots[j].bypassCache ==>
      slots[i].height <= slots[j].height
  }

  ghost predicate AllRight(archive: Archive, calls: seq<Call>)
    requires AllComplete(calls)
  {
    forall i :: 0 <= i < |calls| ==> Right(archive, calls, i)
  }

  // Whatever the archive holds and whatever is asked at these heights, no answer is wrong.
  ghost predicate Invisible(slots: seq<Slot>) {
    forall archive: Archive, calls: seq<Call> ::
      AllComplete(calls) && SlotsOf(calls) == slots && AllTruthful(archive, calls) ==> AllRight(archive, calls)
  }

  // An archive whose answers differ at every height, asked for the same path again and again.
  function Marked(path: string, height: nat): (data: Json)
    ensures |data| == height
  {
    seq(height, _ => '.')
  }

  function SameCall(slot: Slot): (c: Call)
    ensures Complete(c)
  {
    var answer := Success(Marked("grants", slot.height));
    Call("grants", slot.height, slot.bypassCache, [answer, answer, answer, answer])
  }

  function SamePath(slots: seq<Slot>): (calls: seq<Call>)
    ensures AllComplete(calls)
  {
    seq(|slots|, i requires 0 <= i < |slots| => SameCall(slots[i]))
  }

  // What the cache then holds: the answer at the greatest height not bypassing it, once there is one.
  function Highest(slots: seq<Slot>): Cache {
    if slots == [] then EmptyCache else
      var before, last := Highest(slots[..|slots| - 1]), slots[|slots| - 1];
      if last.bypassCache || (before != EmptyCache && last.height <= before.height) then before
      else S.Cache(map["grants" := Marked("grants", last.height)], last.height)
  }

  lemma {:induction false} HighestOfAll(slots: seq<Slot>)
    ensures var s := Highest(slots);
            && (s == EmptyCache || s == S.Cache(map["grants" := Marked("grants", s.height)], s.height))
            && forall i :: 0 <= i < |slots| && !slots[i].bypassCache ==> s != EmptyCache && slots[i].height <= s.height
  {
    if slots != [] {
      HighestOfAll(slots[..|slots| - 1]);
      assert "grants" in map["grants" := Marked("grants", slots[|slots| - 1].height)];
    }
  }

  lemma {:induction false} KeepsTheHighest(slots: seq<Slot>)
    ensures CacheAfter(SamePath(slots)) == Highest(slots)
  {
    if slots != [] {
      var init, last := slots[..|slots| - 1], slots[|slots| - 1];
      KeepsTheHighest(init);
      HighestOfAll(init);
      assert SamePath(slots)[..|slots| - 1] == SamePath(init);
      assert CacheAfter(SamePath(slots)) == Ask(CacheAfter(SamePath(init)), SameCall(last)).0;
      hide CacheAfter, SamePath, Marked;
      assert Fetch(SameCall(last).replies) == Data(Marked("grants", last.height));
    }
  }

  lemma SamePathFits(slots: seq<Slot>)
    ensures SlotsOf(SamePath(slots)) == slots && AllTruthful(Marked, SamePath(slots))
  {
    hide Marked;
  }

  lemma StaleAnswer(slots: seq<Slot>, i: nat, j: nat)
    requires i < j < |slots| && !slots[i].bypassCache && !slots[j].bypassCache && slots[i].height > slots[j].height
    ensures !Right(Marked, SamePath(slots), j)
  {
    KeepsTheHighest(slots[..j]);
    HighestOfAll(slots[..j]);
    assert slots[..j][i] == slots[i];
    assert SamePath(slots)[..j] == SamePath(slots[..j]);
    assert AnswerTo(SamePath(slots), j) == Ask(Highest(slots[..j]), SameCall(slots[j])).1;
    hide CacheAfter, Highest;
  }

  lemma ForwardRun(archive: Archive, calls: seq<Call>)
    requires AllComplete(calls) && AllTruthful(archive, calls) && ForwardSlots(SlotsOf(calls))
    ensures AllRight(archive, calls)
  {
    hide Right;
    var slots := SlotsOf(calls);
    assert forall i :: 0 <= i < |calls| ==> slots[i] == Slot(calls[i].height, calls[i].bypassCache);
    forall i: nat | i < |calls|
      ensures Right(archive, calls, i)
    {
      CacheInvisible(archive, calls, i);
    }
  }

  /** With one call at a time it is invisible exactly on the runs that never go back in height. */
  lemma InvisibleIffForward(slots: seq<Slot>)
    ensures Invisible(slots) <==> ForwardSlots(slots)
  {
    hide CacheAfter, AnswerTo, Right, Marked, Truthful;
    if ForwardSlots(slots) {
      forall archive: Archive, calls: seq<Call>
        | AllComplete(calls) && SlotsOf(calls) == slots && AllTruthful(archive, calls)
        ensures AllRight(archive, calls)
      {
        ForwardRun(archive, calls);
      }
    } else {
      var i, j :| 0 <= i < j < |slots| && !slots[i].bypassCache && !slots[j].bypassCache
                  && slots[i].height > slots[j].height;
      var calls := SamePath(slots);
      StaleAnswer(slots, i, j);
      SamePathFits(slots);
      hide SamePath, SlotsOf;
      assert !AllRight(Marked, calls);
    }
  }

  // -------------------------------------------------------------------------
  // Overlapping calls: the reply is stored when it arrives, without another look at the height
  // -------------------------------------------------------------------------

  function RequestOf(c: Call): S.Request {
    S.Request(c.path, c.height, !c.bypassCache)
  }

  function DataOf(answer: Answer): Option<Json> {
    if answer.Data? then Some(answer.data) else None
  }

  /** A call nothing happens during is its issue followed at once by the arrival of its reply. */
  lemma AskIsIssueThenArrive(s: S.Traffic<Json>, c: Call)
    requires Complete(c) && s.events !in s.flying
    ensures var hit := S.Hit(S.Rises, s.cache, RequestOf(c));
            var issued := S.Next(S.Rises, s, S.Issue(RequestOf(c)));
            var done := if hit.Some? then issued
                        else S.Next(S.Rises, issued, S.Arrive(s.events, DataOf(Fetch(c.replies))));
            && done.flying == s.flying
            && (done.cache, if hit.Some? then Data(hit.value) else Fetch(c.replies)) == Ask(s.cache, c)
  {
    assert s.flying[s.events := RequestOf(c)] - {s.events} == s.flying;
  }

  // The archive itself is what stands behind the answers.
  function Itself(archive: Archive): Archive {
    archive
  }

  lemma MarkedTellsApart()
    ensures S.TellsApart(Itself)
  {
    forall height: nat
      ensures S.SomeMarks(Itself, height)
    {
      assert forall path: string, h: nat :: |Itself(Marked)(path, h)| == h;
      assert S.Marks(Itself(Marked), height);
    }
  }

  /** Exactly when are overlapping calls answered right, whatever the archive holds and whichever of the
      paths, two at least, are asked for: when every call that may read what another stored is for the same
      height. */
  lemma OverlappingCalls(slots: seq<S.Slot>, paths: string -> bool, path: string, other: string)
    requires path != other && paths(path) && paths(other)
    ensures S.Invisible(S.Rises, slots, paths, Itself) <==> S.Timely(S.Rises, slots)
  {
    MarkedTellsApart();
    S.InvisibleIffTimely(S.Rises, slots, paths, Itself, path, other);
  }

  /** And exactly when can that be relied on at every moment of a run: when heights never decrease and no
      call is issued for another height while one waits for the network, bypassing calls aside. */
  lemma SafeIffForwardAndNoneOvertaken(moves: seq<L.Move>, paths: string -> bool)
    requires L.Asks(moves, paths)
    ensures var events := L.Marked(moves);
            L.SafeThroughout(S.Rises, moves, paths, Itself) <==>
              L.NeverDecreases(events) && L.NoneOvertaken(S.Rises, events)
  {
    MarkedTellsApart();
    L.SafeIffInStep(S.Rises, moves, paths, Itself);
    L.InStepMeans(S.Rises, L.Marked(moves));
    hide L.SafeThroughout, L.NeverDecreases, L.NoneOvertaken, L.InStep, L.Marked;
  }

  /** Heights that never decrease are not enough: a reply overtaken by a call for the next height is stored
      there, and read by the next call for its path. */
  lemma OvertakenReply(path: string, other: string, height: nat, stale: Json)
    requires path != other && height > 0
    ensures var late := S.Request(path, height + 1, true);
            var events := [S.Issue(S.Request(path, height, true)), S.Issue(S.Request(other, height + 1, true)),
                           S.Arrive(0, Some(stale)), S.Issue(late)];
            L.NeverDecreases(events) && S.Answered(S.Rises, events, 3) == Some((late, stale))
  {
    var e0, e1, e2 := S.Issue(S.Request(path, height, true)), S.Issue(S.Request(other, height + 1, true)),
                      S.Arrive(0, Some(stale));
    var events := [e0, e1, e2, S.Issue(S.Request(path, height + 1, true))];
    S.AfterNext(S.Rises, events, 0);
    S.AfterNext(S.Rises, events, 1);
    S.AfterNext(S.Rises, events, 2);
    assert events[..0] == [];
  }

  /** A call the cache answers never waits for the network: fetched, served from the cache and asked for again
      at the next height is a run that keeps to the condition. */
  lemma HitIsNotOvertaken(path: string, height: nat, data: Json)
    requires height > 0
    ensures var here := S.Request(path, height, true);
            var events := [S.Issue(here), S.Arrive(0, Some(data)), S.Issue(here),
                           S.Issue(S.Request(path, height + 1, true))];
            && L.NeverDecreases(events) && L.NoneOvertaken(S.Rises, events)
            && S.Answered(S.Rises, events, 2) == Some((here, data))
  {
    var here := S.Request(path, height, true);
    var events := [S.Issue(here), S.Arrive(0, Some(data)), S.Issue(here), S.Issue(S.Request(path, height + 1, true))];
    S.AfterNext(S.Rises, events, 0);
    S.AfterNext(S.Rises, events, 1);
    S.AfterNext(S.Rises, events, 2);
    assert events[..0] == [];
    assert forall id :: id in map[0 := here] - {0} ==> false;
  }

  // -------------------------------------------------------------------------
  // The client, updated in place
  // -------------------------------------------------------------------------

  // The log tells what the archive holds, and heights and flights in it are as they should be.
  ghost predicate Disciplined(archive: Archive, log: seq<S.Event<Json>>) {
    S.Truthful(archive, log) && L.NeverDecreases(log) && L.NoneOvertaken(S.Rises, log)
  }

  // An answer in such a log is the archive's at the requested height.
  ghost predicate RightIn(log: seq<S.Event<Json>>, c: Call, data: Option<Json>) {
    forall archive: Archive :: Disciplined(archive, log) && data.Some? ==> data.value == archive(c.path, c.height)
  }

  // A call whose replies are the archive's keeps a log one that tells what the archive holds.
  ghost predicate KeepsTruthful(before: seq<S.Event<Json>>, after: seq<S.Event<Json>>, c: Call) {
    forall archive: Archive :: Truthful(archive, c) && S.Truthful(archive, before) ==> S.Truthful(archive, after)
  }

  function Requests(flying: map<nat, Call>): map<nat, S.Request> {
    map id | id in flying :: RequestOf(flying[id])
  }

  // Every call that waits for the network was issued.
  ghost predicate Logged(flying: map<nat, Call>, log: seq<S.Event<Json>>) {
    forall id :: id in flying ==> id < |log| && Complete(flying[id]) && log[id] == S.Issue(RequestOf(flying[id]))
  }

  lemma LoggedIssue(s: Cache, flying: map<nat, Call>, log: seq<S.Event<Json>>, c: Call)
    requires Logged(flying, log) && Complete(c)
    ensures var after := log + [S.Issue(RequestOf(c))]; Logged(flying, after) && Logged(flying[|log| := c], after)
    ensures var entered := if c.bypassCache then s else CleanedUp(s, c.height);
            var hit := if !c.bypassCache && c.path in entered.entries then Some(entered.entries[c.path]) else None;
            && S.Hit(S.Rises, s, RequestOf(c)) == hit
            && S.Next(S.Rises, S.Traffic(s, Requests(flying), |log|), S.Issue(RequestOf(c))) ==
               S.Traffic(entered, Requests(if hit.Some? then flying else flying[|log| := c]), |log| + 1)
  {
    assert Requests(flying[|log| := c]) == Requests(flying)[|log| := RequestOf(c)];
  }

  lemma NotYetIssued(flying: map<nat, Call>, log: seq<S.Event<Json>>)
    requires Logged(flying, log)
    ensures |log| !in flying && |log| !in Requests(flying)
  {
  }

  lemma BothKeepTruthful(a: seq<S.Event<Json>>, b: seq<S.Event<Json>>, d: seq<S.Event<Json>>, c: Call)
    requires KeepsTruthful(a, b, c) && KeepsTruthful(b, d, c)
    ensures KeepsTruthful(a, d, c)
  {
    hide Truthful, S.Truthful;
  }

  lemma LoggedArrival(s: Cache, flying: map<nat, Call>, log: seq<S.Event<Json>>, id: nat, answer: Answer)
    requires Logged(flying, log) && id in flying
    ensures id < |log| && Complete(flying[id]) && log[id] == S.Issue(RequestOf(flying[id]))
    ensures Logged(flying - {id}, log + [S.Arrive(id, DataOf(answer))])
    ensures var c := flying[id];
            var entries := if answer.Data? && !c.bypassCache then s.entries[c.path := answer.data] else s.entries;
            S.Next(S.Rises, S.Traffic(s, Requests(flying), |log|), S.Arrive(id, DataOf(answer))) ==
            S.Traffic(S.Cache(entries, s.height), Requests(flying - {id}), |log| + 1)
  {
    assert Requests(flying - {id}) == Requests(flying) - {id};
  }

  lemma HitIsArchives(log: seq<S.Event<Json>>, c: Call)
    ensures var after := log + [S.Issue(RequestOf(c))];
            RightIn(after, c, S.Hit(S.Rises, S.After(S.Rises, log).cache, RequestOf(c))) && KeepsTruthful(log, after, c)
  {
    hide S.After, S.Truthful, L.NeverDecreases, L.NoneOvertaken;
    var after := log + [S.Issue(RequestOf(c))];
    L.InStepMeans(S.Rises, after);
    forall archive: Archive
      ensures S.Truthful(archive, log) ==> S.Truthful(archive, after)
      ensures var hit := S.Hit(S.Rises, S.After(S.Rises, log).cache, RequestOf(c));
              Disciplined(archive, after) && hit.Some? ==> hit.value == archive(c.path, c.height)
    {
      L.IssueStaysTruthful(archive, log, RequestOf(c));
      if Disciplined(archive, after) {
        L.HitIsRight(S.Rises, archive, log, RequestOf(c));
      }
    }
  }

  lemma ReplyIsArchives(log: seq<S.Event<Json>>, id: nat, c: Call)
    requires id < |log| && log[id] == S.Issue(RequestOf(c)) && Complete(c)
    ensures var data := DataOf(Fetch(c.replies));
            var after := log + [S.Arrive(id, data)];
            RightIn(after, c, data) && KeepsTruthful(log, after, c)
  {
    hide Fetch, S.Truthful, L.NeverDecreases, L.NoneOvertaken;
    var data := DataOf(Fetch(c.replies));
    var after := log + [S.Arrive(id, data)];
    forall archive: Archive
      ensures Truthful(archive, c) && S.Truthful(archive, log) ==> S.Truthful(archive, after)
      ensures S.Truthful(archive, after) && data.Some? ==> data.value == archive(c.path, c.height)
    {
      if Truthful(archive, c) {
        FetchTruthful(archive, c, c.replies);
      }
      L.ReplyStaysTruthful(archive, log, id, data);
    }
  }

  // The log accounts for the cache and all that is in flight.
  ghost predicate InOrder(s: Cache, flying: map<nat, Call>, events: nat, log: seq<S.Event<Json>>) {
    events == |log| && S.Traffic(s, Requests(flying), events) == S.After(S.Rises, log) && Logged(flying, log)
  }

  lemma IssueInOrder(s: Cache, flying: map<nat, Call>, events: nat, log: seq<S.Event<Json>>, c: Call)
    requires InOrder(s, flying, events, log) && Complete(c)
    ensures var after := log + [S.Issue(RequestOf(c))];
            var entered := if c.bypassCache then s else CleanedUp(s, c.height);
            var hit := if !c.bypassCache && c.path in entered.entries then Some(entered.entries[c.path]) else None;
            var flying' := if hit.Some? then flying else flying[events := c];
            && InOrder(entered, flying', events + 1, after) && events !in flying
            && S.Hit(S.Rises, s, RequestOf(c)) == hit && RightIn(after, c, hit) && KeepsTruthful(log, after, c)
            && S.Next(S.Rises, S.Traffic(s, Requests(flying), events), S.Issue(RequestOf(c))) ==
               S.Traffic(entered, Requests(flying'), events + 1)
  {
    L.OneMore(S.Rises, log, S.Issue(RequestOf(c)));
    HitIsArchives(log, c);
    LoggedIssue(s, flying, log, c);
    hide S.After, S.Next, S.Hit, CleanedUp, RightIn, KeepsTruthful, Requests, Logged, RequestOf;
  }

  lemma ArrivalInOrder(s: Cache, flying: map<nat, Call>, events: nat, log: seq<S.Event<Json>>, id: nat)
    requires InOrder(s, flying, events, log) && id in flying
    ensures Complete(flying[id])
    ensures var c := flying[id];
            var answer := Fetch(c.replies);
            var after := log + [S.Arrive(id, DataOf(answer))];
            var stored := if answer.Data? && !c.bypassCache then s.(entries := s.entries[c.path := answer.data]) else s;
            && InOrder(stored, flying - {id}, events + 1, after)
            && RightIn(after, c, DataOf(answer)) && KeepsTruthful(log, after, c)
            && S.Next(S.Rises, S.Traffic(s, Requests(flying), events), S.Arrive(id, DataOf(answer))) ==
               S.Traffic(stored, Requests(flying - {id}), events + 1)
  {
    assert Complete(flying[id]);
    var answer := Fetch(flying[id].replies);
    L.OneMore(S.Rises, log, S.Arrive(id, DataOf(answer)));
    LoggedArrival(s, flying, log, id, answer);
    ReplyIsArchives(log, id, flying[id]);
    hide S.After, S.Next, RightIn, KeepsTruthful, Requests, Logged, RequestOf, Fetch, DataOf;
  }

  class ArchiveClient {
    var archiveApiCache: map<string, Json>
    var currentHeight: nat
    var flying: map<nat, Call>   // calls waiting for the network
    var events: nat
    ghost var log: seq<S.Event<Json>>   // what was issued and what arrived

    constructor ()
      ensures Valid() && log == []
    {
      archiveApiCache, currentHeight, flying, events, log := map[], 0, map[], 0, [];
    }

    ghost predicate Valid()
      reads this
    {
      InOrder(Contents().cache, flying, events, log)
    }

    ghost function Contents(): S.Traffic<Json>
      reads this
    {
      S.Traffic(S.Cache(archiveApiCache, currentHeight), Requests(flying), events)
    }

    method CleanupOldHeights(newHeight: nat)
      modifies this`archiveApiCache, this`currentHeight
      ensures S.Cache(archiveApiCache, currentHeight) == CleanedUp(old(Contents()).cache, newHeight)
    {
      if newHeight <= currentHeight {
        return;
      }
      archiveApiCache := map[];
      currentHeight := newHeight;
    }

    /** Up to the first await. In a log that keeps to the condition, an answer from the cache is the archive's
        at the requested height. */
    method Begin(c: Call) returns (id: nat, hit: Option<Json>)
      requires Valid() && Complete(c)
      modifies this
      ensures Valid() && log == old(log) + [S.Issue(RequestOf(c))]
      ensures Contents() == S.Next(S.Rises, old(Contents()), S.Issue(RequestOf(c)))
      ensures hit == S.Hit(S.Rises, old(Contents()).cache, RequestOf(c)) && id == old(events)
      ensures flying == if hit.Some? then old(flying) else old(flying)[id := c]
      ensures RightIn(log, c, hit) && KeepsTruthful(old(log), log, c)
    {
      hide InOrder, S.Next, S.Hit, CleanedUp, RightIn, KeepsTruthful, Requests, RequestOf;
      IssueInOrder(Contents().cache, flying, events, log, c);
      id, hit := events, None;
      events, log := events + 1, log + [S.Issue(RequestOf(c))];
      if !c.bypassCache {
        CleanupOldHeights(c.height);
        if c.path in archiveApiCache {
          hit := Some(archiveApiCache[c.path]);
          return;
        }
      }
      flying := flying[id := c];
    }

    // The fetch and its retries.
    static method FetchWithRetries(replies: seq<Reply>) returns (answer: Answer)
      requires |replies| == RETRIES + 1
      ensures answer == Fetch(replies)
    {
      var attempt := 0;
      assert replies[0..] == replies;
      while attempt <= RETRIES
        invariant attempt <= RETRIES && Fetch(replies[attempt..]) == Fetch(replies)
      {
        assert replies[attempt..][0] == replies[attempt] && replies[attempt..][1..] == replies[attempt + 1..];
        match replies[attempt] {
          case Success(data) =>
            return Data(data);
          case _ =>
            if !Retriable(replies[attempt]) {
              return Rejected;
            }
            if attempt == RETRIES {
              return Exhausted;
            }
            attempt := attempt + 1;
        }
      }
    }

    // From the arrival of the last reply on.
    method End(id: nat) returns (answer: Answer)
      requires Valid() && id in flying
      modifies this
      ensures Valid() && flying == old(flying) - {id}
      ensures answer == Fetch(old(flying)[id].replies)
      ensures log == old(log) + [S.Arrive(id, DataOf(answer))]
      ensures Contents() == S.Next(S.Rises, old(Contents()), S.Arrive(id, DataOf(answer)))
      ensures RightIn(log, old(flying)[id], DataOf(answer)) && KeepsTruthful(old(log), log, old(flying)[id])
    {
      hide InOrder, S.Next, RightIn, KeepsTruthful, Requests, RequestOf, Fetch, DataOf;
      var c := flying[id];
      ArrivalInOrder(Contents().cache, flying, events, log, id);
      answer := FetchWithRetries(c.replies);
      if answer.Data? && !c.bypassCache {
        archiveApiCache := archiveApiCache[c.path := answer.data];
      }
      flying := flying - {id};
      events, log := events + 1, log + [S.Arrive(id, DataOf(answer))];
    }

    // A call nothing happens during.
    method QueryArchiveApi(c: Call) returns (answer: Answer)
      requires Valid() && Complete(c)
      modifies this
      ensures Valid() && flying == old(flying)
      ensures (Contents().cache, answer) == Ask(old(Contents()).cache, c)
      ensures RightIn(log, c, DataOf(answer)) && KeepsTruthful(old(log), log, c)
    {
      NotYetIssued(flying, log);
      hide Ask, S.After, S.Next, S.Hit, RightIn, KeepsTruthful, Requests, Logged, Fetch;
      AskIsIssueThenArrive(Contents(), c);
      var id, hit := Begin(c);
      if hit.Some? {
        return Data(hit.value);
      }
      assert old(flying)[id := c] - {id} == old(flying);
      ghost var issued := log;
      answer := End(id);
      BothKeepTruthful(old(log), issued, log, c);
    }
  }
}
