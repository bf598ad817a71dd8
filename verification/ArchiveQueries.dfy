/** Listings read page by page, and authz queries moved to a height the archive has kept:
    src/util/archive-queries.ts. */
module ArchiveQueries {
  import opened Wrappers
  import S = ScopedCache
  import L = CacheLogs

  // -------------------------------------------------------------------------
  // Contract listings, continued with start_after
  // -------------------------------------------------------------------------

  // Proposals are listed by number, everything else by address or token id.
  datatype Key = Number(n: nat) | Text(s: string)

  predicate TextBefore(a: string, b: string) {
    b != [] && (a == [] || a[0] < b[0] || (a[0] == b[0] && TextBefore(a[1..], b[1..])))
  }

  predicate Before(a: Key, b: Key) {
    match (a, b)
    case (Number(m), Number(n)) => m < n
    case (Number(_), Text(_)) => true
    case (Text(_), Number(_)) => false
    case (Text(s), Text(t)) => TextBefore(s, t)
  }

  lemma {:induction false} TextBeforeOrders(a: string, b: string, c: string)
    ensures !TextBefore(a, a)
    ensures TextBefore(a, b) ==> !TextBefore(b, a)
    ensures TextBefore(a, b) && TextBefore(b, c) ==> TextBefore(a, c)
  {
    if a != [] {
      TextBeforeOrders(a[1..], if b != [] then b[1..] else b, if c != [] then c[1..] else c);
    }
  }

  predicate Ascending(keys: seq<Key>) {
    forall i, j :: 0 <= i < j < |keys| ==> Before(keys[i], keys[j])
  }

  datatype StartAfter = FromStart | After(key: Key)

  // What the contract serves: keys after the cursor in ascending order, `cap` of them at most.
  datatype Contract = Contract(keys: seq<Key>, cap: nat)

  function Rest(keys: seq<Key>, start: StartAfter): seq<Key> {
    if keys == [] || start.FromStart? then keys
    else (if Before(start.key, keys[0]) then [keys[0]] else []) + Rest(keys[1..], start)
  }

  function Min(a: nat, b: nat): nat {
    if a <= b then a else b
  }

  function Page(c: Contract, start: StartAfter, limit: nat): seq<Key> {
    var rest := Rest(c.keys, start);
    rest[..Min(Min(limit, c.cap), |rest|)]
  }

  lemma {:induction false} RestAll(keys: seq<Key>, key: Key)
    requires forall i :: 0 <= i < |keys| ==> Before(key, keys[i])
    ensures Rest(keys, After(key)) == keys
  {
    if keys != [] {
      RestAll(keys[1..], key);
    }
  }

  // The cursor left by a page is where the next one continues.
  lemma {:induction false} RestAfter(keys: seq<Key>, k: nat)
    requires Ascending(keys) && k < |keys|
    ensures Rest(keys, After(keys[k])) == keys[k + 1..]
  {
    hide TextBefore;
    if k == 0 {
      NotBeforeItself(keys[0]);
      RestAll(keys[1..], keys[0]);
    } else {
      RestAfter(keys[1..], k - 1);
      NotBeforeItself(keys[0]);
      Asymmetric(keys[0], keys[k]);
      assert keys[1..][k..] == keys[k + 1..];
    }
  }

  lemma NotBeforeItself(a: Key)
    ensures !Before(a, a)
  {
    if a.Text? { TextBeforeOrders(a.s, a.s, a.s); }
  }

  lemma Asymmetric(a: Key, b: Key)
    ensures Before(a, b) ==> !Before(b, a)
  {
    if a.Text? && b.Text? { TextBeforeOrders(a.s, b.s, a.s); }
  }

  lemma Multiples(x: int, n: nat)
    ensures x >= 1 ==> x * n >= n
    ensures x <= -1 ==> x * n + n <= 0
  {
    if x >= 1 {
      assert (x - 1) * n >= 0;
    } else if x <= -1 {
      assert (-1 - x) * n >= 0;
    }
  }

  lemma PagesRead(total: nat, limit: nat, full: nat)
    requires limit > 0 && full * limit <= total < full * limit + limit
    ensures full == total / limit
  {
    var q := total / limit;
    assert total == q * limit + total % limit;
    assert (full - q) * limit == full * limit - q * limit;
    Multiples(full - q, limit);
  }

  lemma NextPage(c: Contract, start: StartAfter, limit: nat, read: nat)
    requires read <= |c.keys| && Rest(c.keys, start) == c.keys[read..]
    ensures |Page(c, start, limit)| == Min(Min(limit, c.cap), |c.keys| - read)
    ensures c.keys[..read] + Page(c, start, limit) == c.keys[..read + |Page(c, start, limit)|]
  {
    hide Rest;
  }

  /** Reads a whole listing. It is complete, in order and without repeats exactly when the contract
      serves as many keys a page as it is asked for, or holds no more than it serves at once; then it
      takes one request more than there are full pages, whether or not the last page is full. */
  method ListAll(c: Contract, limit: nat) returns (all: seq<Key>, requests: nat)
    requires Ascending(c.keys) && limit > 0
    ensures all == c.keys <==> c.cap >= limit || |c.keys| <= c.cap
    ensures c.cap >= limit ==> requests == |c.keys| / limit + 1
    ensures c.cap < limit ==> all == c.keys[..Min(c.cap, |c.keys|)] && requests == 1
  {
    hide Rest, Ascending, Page;
    all, requests := [], 0;
    var startAfter := FromStart;
    assert Rest(c.keys, startAfter) == c.keys by { FromTheStart(c.keys); }
    while true
      invariant |all| <= |c.keys| && all == c.keys[..|all|]
      invariant Rest(c.keys, startAfter) == c.keys[|all|..]
      invariant |all| == requests * limit && (requests > 0 ==> c.cap >= limit)
      decreases |c.keys| - |all|
    {
      var batch := Page(c, startAfter, limit);
      NextPage(c, startAfter, limit, |all|);
      if batch == [] {
        if c.cap >= limit { PagesRead(|c.keys|, limit, requests); }
        requests := requests + 1;
        break;
      }
      all := all + batch;
      if |batch| < limit {
        if c.cap >= limit { PagesRead(|c.keys|, limit, requests); }
        requests := requests + 1;
        break;
      }
      assert |all| == (requests + 1) * limit;
      requests := requests + 1;
      startAfter := After(batch[|batch| - 1]);
      assert batch[|batch| - 1] == all[|all| - 1] == c.keys[|all| - 1];
      RestAfter(c.keys, |all| - 1);
    }
  }

  lemma FromTheStart(keys: seq<Key>)
    ensures Rest(keys, FromStart) == keys
  {
  }

  // -------------------------------------------------------------------------
  // Authz grants, at the height asked for or the next one the archive has kept
  // -------------------------------------------------------------------------

  type Grant = string

  datatype Error = PrunedState | OtherError

  datatype Result = Ok(grants: seq<Grant>) | Err(error: Error)

  // How one request goes: answered, refused because the height was pruned, or failed otherwise.
  datatype Outcome = Served | Pruned | Down

  const SNAP_INTERVAL := 100
  const PAGE_LIMIT := 100

  // The height rounded up to the next multiple of 100.
  function Snapped(height: nat): (s: nat)
    ensures s % SNAP_INTERVAL == 0 && height <= s < height + SNAP_INTERVAL
    ensures s == height <==> height % SNAP_INTERVAL == 0
  {
    (height + SNAP_INTERVAL - 1) / SNAP_INTERVAL * SNAP_INTERVAL
  }

  function CacheKey(granter: string, grantee: string): string {
    granter + ":" + grantee
  }

  lemma {:induction false} CacheKeyInjective(granter: string, grantee: string, granter': string, grantee': string)
    requires ':' !in granter && ':' !in granter'
    requires CacheKey(granter, grantee) == CacheKey(granter', grantee')
    ensures granter == granter' && grantee == grantee'
  {
    var a, b := CacheKey(granter, grantee), CacheKey(granter', grantee');
    assert a[|granter|] == ':' && b[|granter'|] == ':';
    assert forall i :: 0 <= i < |granter| ==> a[i] == granter[i] && granter[i] in granter;
    assert forall i :: 0 <= i < |granter'| ==> b[i] == granter'[i] && granter'[i] in granter';
    assert granter == a[..|granter|] && granter' == b[..|granter'|];
    assert grantee == a[|granter| + 1..] && grantee' == b[|granter'| + 1..];
  }

  function ColonAt(key: string): (i: nat)
    ensures i <= |key| && ':' !in key[..i]
    ensures i < |key| ==> key[i] == ':'
  {
    if key == "" || key[0] == ':' then 0
    else
      var i := ColonAt(key[1..]) + 1;
      assert key[..i] == [key[0]] + key[1..][..i - 1];
      i
  }

  // The archive's answer to a cache key: the pair is read off it again.
  function GrantsOfKey(archive: Archive): S.Archive<seq<Grant>> {
    (key: string, height: nat) =>
      var i := ColonAt(key);
      archive.grants(height, key[..i], if i < |key| then key[i + 1..] else "")
  }

  // The archive: the grants of a pair at a height, and whether it answers "not found" for none.
  datatype Archive = Archive(grants: (nat, string, string) -> seq<Grant>, emptyIsNotFound: bool)

  // One page of a list. A next key is there exactly when more follows.
  datatype GrantPage = GrantPage(batch: seq<Grant>, nextKey: NextKey) | NotFound

  datatype NextKey = Done | At(position: nat)

  function ServeGrants(list: seq<Grant>, emptyIsNotFound: bool, key: NextKey): GrantPage {
    if list == [] && emptyIsNotFound then NotFound
    else
      var from := if key.At? then Min(key.position, |list|) else 0;
      var to := Min(from + PAGE_LIMIT, |list|);
      GrantPage(list[from..to], if to < |list| then At(to) else Done)
  }

  // Requests needed to read a list to its end.
  function PageCount(n: nat): (count: nat)
    ensures n == 0 ==> count == 1
    ensures n > 0 ==> 100 * (count - 1) < n <= 100 * count
  {
    if n == 0 then 1 else (n + PAGE_LIMIT - 1) / PAGE_LIMIT
  }

  // Request i is the first of those for a list of n grants that is not served.
  predicate FirstRefused(n: nat, outcomes: nat -> Outcome, i: int) {
    && 0 <= i < PageCount(n) && !outcomes(i).Served?
    && forall j :: 0 <= j < i ==> outcomes(j).Served?
  }

  ghost predicate RefusedAsPruned(n: nat, outcomes: nat -> Outcome) {
    exists i :: FirstRefused(n, outcomes, i) && outcomes(i).Pruned?
  }

  // The first request that is not served decides the error; otherwise the list comes back whole.
  ghost predicate Outcomes(r: Result, list: seq<Grant>, outcomes: nat -> Outcome) {
    match r
    case Ok(grants) => grants == list && forall i :: 0 <= i < PageCount(|list|) ==> outcomes(i).Served?
    case Err(error) =>
      exists i :: FirstRefused(|list|, outcomes, i) && outcomes(i) == (if error.PrunedState? then Pruned else Down)
  }

  // One request at most is the first refused one.
  lemma RefusedOnce(n: nat, outcomes: nat -> Outcome, i: int, j: int)
    requires FirstRefused(n, outcomes, i) && FirstRefused(n, outcomes, j)
    ensures i == j
  {
  }

  lemma PrunedErrors(r: Result, list: seq<Grant>, outcomes: nat -> Outcome)
    requires Outcomes(r, list, outcomes)
    ensures r == Err(PrunedState) <==> RefusedAsPruned(|list|, outcomes)
  {
    if i :| FirstRefused(|list|, outcomes, i) && outcomes(i).Pruned? {
      if r.Err? {
        var j :| FirstRefused(|list|, outcomes, j) && outcomes(j) == (if r.error.PrunedState? then Pruned else Down);
        RefusedOnce(|list|, outcomes, i, j);
      }
    }
  }

  // What the first requests bring back, and the key the next one starts from.
  function ReadBy(list: seq<Grant>, request: nat): seq<Grant> {
    list[..Min(request * PAGE_LIMIT, |list|)]
  }

  function KeyFor(request: nat): NextKey {
    if request == 0 then Done else At(request * PAGE_LIMIT)
  }

  lemma OnePageMore(list: seq<Grant>, emptyIsNotFound: bool, request: nat)
    requires request < PageCount(|list|)
    ensures var page := ServeGrants(list, emptyIsNotFound, KeyFor(request));
            var last := request + 1 == PageCount(|list|);
            && (page.NotFound? ==> last && ReadBy(list, request) == list)
            && (page.GrantPage? ==>
                  && ReadBy(list, request) + page.batch == ReadBy(list, request + 1)
                  && (last <==> page.nextKey.Done? || page.batch == [])
                  && (last ==> ReadBy(list, request + 1) == list)
                  && (!last ==> page.nextKey == KeyFor(request + 1)))
  {
  }

  lemma ServedMeansOk(r: Result, list: seq<Grant>, outcomes: nat -> Outcome)
    requires r.Err? ==> Outcomes(r, list, outcomes)
    ensures (forall i :: 0 <= i < PageCount(|list|) ==> outcomes(i).Served?) ==> r.Ok?
  {
  }

  // The next height the archive keeps.
  predicate NextKept(height: nat, s: nat) {
    s % 100 == 0 && height <= s < height + 100
  }

  lemma SnappedIsNextKept(height: nat)
    ensures forall s: nat :: NextKept(height, s) <==> s == Snapped(height)
    ensures Snapped(height) == height <==> height % 100 == 0
  {
    forall s: nat | NextKept(height, s)
      ensures s == Snapped(height)
    {
      assert s / 100 == Snapped(height) / 100;
    }
  }

  lemma KeyStandsForPair(archive: Archive, height: nat, granter: string, grantee: string)
    requires ':' !in granter
    ensures GrantsOfKey(archive)(CacheKey(granter, grantee), height) == archive.grants(height, granter, grantee)
  {
    var key := CacheKey(granter, grantee);
    assert key == granter + (":" + grantee);
    ColonAfter(granter, ":" + grantee);
    assert key[..|granter|] == granter && key[|granter| + 1..] == grantee;
  }

  lemma {:induction false} ColonAfter(before: string, rest: string)
    requires ':' !in before && rest != "" && rest[0] == ':'
    ensures ColonAt(before + rest) == |before|
  {
    if before == "" {
      assert before + rest == rest;
    } else {
      assert (before + rest)[1..] == before[1..] + rest;
      ColonAfter(before[1..], rest);
    }
  }

  // A query for a pair at a kept height.
  datatype Query = Query(height: nat, granter: string, grantee: string)

  function RequestOf(q: Query): S.Request {
    S.Request(CacheKey(q.granter, q.grantee), q.height, true)
  }

  function GrantsOf(r: Result): Option<seq<Grant>> {
    if r.Ok? then Some(r.grants) else None
  }

  // What cache keys look like: those of pairs, and no others.
  function IsPairKey(key: string): bool {
    ':' in key
  }

  lemma PairKeys(key: string)
    ensures IsPairKey(key) <==>
              exists granter: string, grantee: string :: ':' !in granter && key == CacheKey(granter, grantee)
  {
    if IsPairKey(key) {
      var i := ColonAt(key);
      assert key[..|key|] == key;
      assert key == CacheKey(key[..i], key[i + 1..]);
    }
  }

  // An archive with as many grants at a height as the height says.
  function AsManyAs(height: nat, granter: string, grantee: string): (grants: seq<Grant>)
    ensures |grants| == height
  {
    seq(height, _ => "grant")
  }

  lemma GrantsCountTheHeight(key: string, height: nat)
    ensures |GrantsOfKey(Archive(AsManyAs, false))(key, height)| == height
  {
    hide AsManyAs;
    var i := ColonAt(key);
    assert GrantsOfKey(Archive(AsManyAs, false))(key, height)
        == AsManyAs(height, key[..i], if i < |key| then key[i + 1..] else "");
  }

  lemma ArchivesTellApart()
    ensures S.TellsApart(GrantsOfKey)
  {
    var archive := Archive(AsManyAs, false);
    forall key: string, h: nat
      ensures |GrantsOfKey(archive)(key, h)| == h
    {
      GrantsCountTheHeight(key, h);
    }
    hide AsManyAs, GrantsOfKey;
    forall height: nat
      ensures S.SomeMarks(GrantsOfKey, height)
    {
      assert S.Marks(GrantsOfKey(archive), height);
    }
  }

  /** Exactly when are overlapping snapped queries answered right, whatever the archive holds and whichever
      pairs are asked for: when every query that may read what another stored is for the same height. */
  lemma OverlappingSnaps(slots: seq<S.Slot>)
    ensures S.Invisible(S.Differs, slots, IsPairKey, GrantsOfKey) <==> S.Timely(S.Differs, slots)
  {
    ArchivesTellApart();
    var wanted, other := CacheKey("a", "b"), CacheKey("a", "c");
    assert wanted[1] == other[1] == ':' && wanted[2] != other[2];
    S.InvisibleIffTimely(S.Differs, slots, IsPairKey, GrantsOfKey, wanted, other);
  }

  /** And exactly when can that be relied on at every moment: when no query snapped to another height is
      issued while one waits for the network. The order of heights does not matter. */
  lemma SnapsSafeIffNoneOvertaken(moves: seq<L.Move>)
    requires L.Asks(moves, IsPairKey)
    ensures L.SafeThroughout(S.Differs, moves, IsPairKey, GrantsOfKey) <==>
              L.NoneOvertaken(S.Differs, L.Marked(moves))
  {
    ArchivesTellApart();
    L.SafeIffInStep(S.Differs, moves, IsPairKey, GrantsOfKey);
    L.InStepMeans(S.Differs, L.Marked(moves));
    hide L.SafeThroughout, L.NoneOvertaken, L.InStep, L.Marked;
  }

  // -------------------------------------------------------------------------
  // The queries, updated in place
  // -------------------------------------------------------------------------

  function Requests(flying: map<nat, Query>): map<nat, S.Request> {
    map id | id in flying :: RequestOf(flying[id])
  }

  // Every query that waits for the network was issued.
  ghost predicate Logged(flying: map<nat, Query>, log: seq<S.Event<seq<Grant>>>) {
    forall id :: id in flying ==>
      id < |log| && ':' !in flying[id].granter && log[id] == S.Issue(RequestOf(flying[id]))
  }

  lemma LoggedIssue(s: S.Cache<seq<Grant>>, flying: map<nat, Query>, log: seq<S.Event<seq<Grant>>>, q: Query)
    requires Logged(flying, log) && ':' !in q.granter
    ensures |log| !in flying
    ensures var after := log + [S.Issue(RequestOf(q))]; Logged(flying, after) && Logged(flying[|log| := q], after)
    ensures var entries, key := if q.height != s.height then map[] else s.entries, CacheKey(q.granter, q.grantee);
            var hit := if key in entries then Some(entries[key]) else None;
            && S.Hit(S.Differs, s, RequestOf(q)) == hit
            && S.Next(S.Differs, S.Traffic(s, Requests(flying), |log|), S.Issue(RequestOf(q))) ==
               S.Traffic(S.Cache(entries, q.height), Requests(if hit.Some? then flying else flying[|log| := q]),
                         |log| + 1)
  {
    hide CacheKey;
    assert Requests(flying[|log| := q]) == Requests(flying)[|log| := RequestOf(q)];
  }

  lemma LoggedArrival(s: S.Cache<seq<Grant>>, flying: map<nat, Query>, log: seq<S.Event<seq<Grant>>>, id: nat,
                      r: Result)
    requires Logged(flying, log) && id in flying
    ensures id < |log| && ':' !in flying[id].granter && log[id] == S.Issue(RequestOf(flying[id]))
    ensures Logged(flying - {id}, log + [S.Arrive(id, GrantsOf(r))])
    ensures var key := CacheKey(flying[id].granter, flying[id].grantee);
            var entries := if r.Ok? then s.entries[key := r.grants] else s.entries;
            S.Next(S.Differs, S.Traffic(s, Requests(flying), |log|), S.Arrive(id, GrantsOf(r))) ==
            S.Traffic(S.Cache(entries, s.height), Requests(flying - {id}), |log| + 1)
  {
    hide CacheKey;
    assert Requests(flying - {id}) == Requests(flying) - {id};
  }

  ghost predicate TellsArchive(archive: Archive, log: seq<S.Event<seq<Grant>>>) {
    S.Truthful(GrantsOfKey(archive), log)
  }

  // In a log in which no query was overtaken, this answer is the archive's at the query's height.
  ghost predicate RightIn(archive: Archive, log: seq<S.Event<seq<Grant>>>, q: Query, grants: Option<seq<Grant>>) {
    L.NoneOvertaken(S.Differs, log) && grants.Some? ==> grants.value == archive.grants(q.height, q.granter, q.grantee)
  }

  lemma HitIsArchives(archive: Archive, log: seq<S.Event<seq<Grant>>>, q: Query)
    requires TellsArchive(archive, log) && ':' !in q.granter
    ensures var after := log + [S.Issue(RequestOf(q))];
            && TellsArchive(archive, after)
            && RightIn(archive, after, q, S.Hit(S.Differs, S.After(S.Differs, log).cache, RequestOf(q)))
  {
    hide S.After, S.Truthful, L.NoneOvertaken, L.NeverDecreases;
    var after := log + [S.Issue(RequestOf(q))];
    L.InStepMeans(S.Differs, after);
    L.IssueStaysTruthful(GrantsOfKey(archive), log, RequestOf(q));
    KeyStandsForPair(archive, q.height, q.granter, q.grantee);
    if L.NoneOvertaken(S.Differs, after) {
      L.HitIsRight(S.Differs, GrantsOfKey(archive), log, RequestOf(q));
    }
  }

  lemma ReplyIsArchives(archive: Archive, log: seq<S.Event<seq<Grant>>>, id: nat, q: Query, r: Result)
    requires TellsArchive(archive, log) && ':' !in q.granter
    requires id < |log| && log[id] == S.Issue(RequestOf(q))
    requires r.Ok? ==> r.grants == archive.grants(q.height, q.granter, q.grantee)
    ensures TellsArchive(archive, log + [S.Arrive(id, GrantsOf(r))])
  {
    hide S.Truthful, GrantsOfKey;
    KeyStandsForPair(archive, q.height, q.granter, q.grantee);
    L.ReplyStaysTruthful(GrantsOfKey(archive), log, id, GrantsOf(r));
  }

  // Kept heights are not asked for again at another height.
  predicate NoneKept(prunedHeights: set<nat>) {
    forall h :: h in prunedHeights ==> h % SNAP_INTERVAL != 0
  }

  // Cached results are the archive's at the cache's height.
  ghost predicate SettledIn(archive: Archive, s: S.Cache<seq<Grant>>) {
    forall key :: key in s.entries ==> s.entries[key] == GrantsOfKey(archive)(key, s.height)
  }

  // The cache is then for the query's height, and what it answers stays in it.
  lemma HitStands(s: S.Traffic<seq<Grant>>, q: Query)
    ensures var hit := S.Hit(S.Differs, s.cache, RequestOf(q));
            var issued, key := S.Next(S.Differs, s, S.Issue(RequestOf(q))), CacheKey(q.granter, q.grantee);
            && issued.cache.height == q.height
            && (hit.Some? <==> key in issued.cache.entries)
            && (hit.Some? ==> issued.cache.entries[key] == hit.value)
            && (Holds(s.cache, q) ==> hit.Some?)
            && (hit.None? ==> s.events in issued.flying && issued.flying[s.events] == RequestOf(q))
  {
    hide CacheKey;
  }

  // The cache can answer the query.
  predicate Holds(s: S.Cache<seq<Grant>>, q: Query) {
    s.height == q.height && CacheKey(q.granter, q.grantee) in s.entries
  }

  lemma LandsInCache(s: S.Traffic<seq<Grant>>, id: nat, q: Query, r: Result)
    requires id in s.flying && s.flying[id] == RequestOf(q) && s.cache.height == q.height && !Holds(s.cache, q)
    ensures var after := S.Next(S.Differs, s, S.Arrive(id, GrantsOf(r))).cache;
            after.height == q.height && (Holds(after, q) <==> r.Ok?)
  {
    hide CacheKey;
  }

  lemma SettledOnes(archive: Archive, s: S.Cache<seq<Grant>>, granter: string, grantee: string)
    requires ':' !in granter && SettledIn(archive, s)
    ensures var key, grants := CacheKey(granter, grantee), archive.grants(s.height, granter, grantee);
            && SettledIn(archive, s.(entries := s.entries[key := grants]))
            && (key in s.entries ==> s.entries[key] == grants)
  {
    KeyStandsForPair(archive, s.height, granter, grantee);
    hide CacheKey, GrantsOfKey;
  }

  // The log accounts for the cache and all that is in flight.
  ghost predicate InOrder(archive: Archive, s: S.Cache<seq<Grant>>, flying: map<nat, Query>, events: nat,
                          log: seq<S.Event<seq<Grant>>>)
  {
    && events == |log| && S.Traffic(s, Requests(flying), events) == S.After(S.Differs, log) && Logged(flying, log)
    && TellsArchive(archive, log)
  }

  lemma IssueInOrder(archive: Archive, s: S.Cache<seq<Grant>>, flying: map<nat, Query>, events: nat,
                     log: seq<S.Event<seq<Grant>>>, q: Query)
    requires InOrder(archive, s, flying, events, log) && ':' !in q.granter
    ensures var after, key := log + [S.Issue(RequestOf(q))], CacheKey(q.granter, q.grantee);
            var entries := if q.height != s.height then map[] else s.entries;
            var hit := if key in entries then Some(entries[key]) else None;
            var entered, flying' := S.Cache(entries, q.height), if hit.Some? then flying else flying[events := q];
            && InOrder(archive, entered, flying', events + 1, after) && events !in flying
            && S.Hit(S.Differs, s, RequestOf(q)) == hit && RightIn(archive, after, q, hit)
            && S.Next(S.Differs, S.Traffic(s, Requests(flying), events), S.Issue(RequestOf(q))) ==
               S.Traffic(entered, Requests(flying'), events + 1)
            && (SettledIn(archive, s) ==> SettledIn(archive, entered))
  {
    L.OneMore(S.Differs, log, S.Issue(RequestOf(q)));
    HitIsArchives(archive, log, q);
    LoggedIssue(s, flying, log, q);
    hide S.After, S.Next, S.Hit, TellsArchive, RightIn, Requests, Logged, RequestOf, GrantsOfKey, CacheKey;
  }

  class AuthzQueries {
    const archive: Archive
    var prunedHeights: set<nat>
    var snapCacheHeight: nat
    var snapCache: map<string, seq<Grant>>
    var flying: map<nat, Query>   // snapped queries waiting for the network
    var events: nat
    ghost var log: seq<S.Event<seq<Grant>>>   // what was issued and what arrived

    constructor (archive: Archive)
      ensures Valid() && Settled() && this.archive == archive && prunedHeights == {} && log == []
    {
      this.archive := archive;
      prunedHeights, snapCacheHeight, snapCache, flying, events, log := {}, 0, map[], map[], 0, [];
    }

    ghost predicate Valid()
      reads this
    {
      NoneKept(prunedHeights) && InOrder(archive, Contents().cache, flying, events, log)
    }

    ghost predicate Settled()
      reads this
    {
      SettledIn(archive, Contents().cache)
    }

    ghost function Contents(): S.Traffic<seq<Grant>>
      reads this
    {
      S.Traffic(S.Cache(snapCache, snapCacheHeight), Requests(flying), events)
    }

    method ReadGrants(height: nat, granter: string, grantee: string, outcomes: nat -> Outcome) returns (r: Result)
      ensures Outcomes(r, archive.grants(height, granter, grantee), outcomes)
    {
      hide ServeGrants, PageCount;
      var list := archive.grants(height, granter, grantee);
      var grants: seq<Grant> := [];
      var nextKey := Done;
      var request := 0;
      while true
        invariant grants == ReadBy(list, request) && nextKey == KeyFor(request) && request < PageCount(|list|)
        invariant forall j :: 0 <= j < request ==> outcomes(j).Served?
        decreases PageCount(|list|) - request
      {
        OnePageMore(list, archive.emptyIsNotFound, request);
        assert !outcomes(request).Served? ==> FirstRefused(|list|, outcomes, request);
        match outcomes(request) {
          case Pruned => return Err(PrunedState);
          case Down => return Err(OtherError);
          case Served =>
        }
        var page := ServeGrants(list, archive.emptyIsNotFound, nextKey);
        if page.NotFound? {
          break;
        }
        grants := grants + page.batch;
        nextKey := page.nextKey;
        if nextKey.Done? || page.batch == [] {
          break;
        }
        request := request + 1;
      }
      r := Ok(grants);
    }

    /** Up to the first await. In a log in which no query was overtaken, an answer from the cache is the
        archive's at the query's height. */
    method BeginSnap(q: Query) returns (id: nat, hit: Option<seq<Grant>>)
      requires Valid() && ':' !in q.granter
      modifies this`snapCache, this`snapCacheHeight, this`flying, this`events, this`log
      ensures Valid() && (old(Settled()) ==> Settled()) && log == old(log) + [S.Issue(RequestOf(q))]
      ensures Contents() == S.Next(S.Differs, old(Contents()), S.Issue(RequestOf(q)))
      ensures hit == S.Hit(S.Differs, old(Contents()).cache, RequestOf(q)) && id == old(events)
      ensures snapCacheHeight == q.height
      ensures id !in old(flying) && flying == if hit.Some? then old(flying) else old(flying)[id := q]
      ensures RightIn(archive, log, q, hit)
    {
      hide InOrder, S.Next, S.Hit, SettledIn, RightIn, Requests, RequestOf, CacheKey, NoneKept;
      IssueInOrder(archive, Contents().cache, flying, events, log, q);
      id, hit := events, None;
      events, log := events + 1, log + [S.Issue(RequestOf(q))];
      if q.height != snapCacheHeight {
        snapCache := map[];
        snapCacheHeight := q.height;
      }
      var cacheKey := CacheKey(q.granter, q.grantee);
      if cacheKey in snapCache {
        hit := Some(snapCache[cacheKey]);
      } else {
        flying := flying[id := q];
      }
    }

    // The pages read, the result is stored without another look at the height the cache is for.
    method EndSnap(id: nat, outcomes: nat -> Outcome) returns (r: Result)
      requires Valid() && id in flying
      modifies this`snapCache, this`flying, this`events, this`log
      ensures Valid() && flying == old(flying) - {id} && log == old(log) + [S.Arrive(id, GrantsOf(r))]
      ensures old(Settled()) && old(flying)[id].height == snapCacheHeight ==> Settled()
      ensures Contents() == S.Next(S.Differs, old(Contents()), S.Arrive(id, GrantsOf(r)))
      ensures var q := old(flying)[id];
              && Outcomes(r, archive.grants(q.height, q.granter, q.grantee), outcomes)
              && (r.Ok? ==> r.grants == archive.grants(q.height, q.granter, q.grantee))
    {
      hide S.After, S.Next, TellsArchive, SettledIn, Requests, Logged, CacheKey;
      var q := flying[id];
      r := ReadGrants(q.height, q.granter, q.grantee, outcomes);
      LoggedArrival(Contents().cache, flying, log, id, r);
      ReplyIsArchives(archive, log, id, q, r);
      if Settled() && q.height == snapCacheHeight {
        SettledOnes(archive, Contents().cache, q.granter, q.grantee);
      }
      hide Outcomes, GrantsOf, RequestOf;
      L.OneMore(S.Differs, log, S.Arrive(id, GrantsOf(r)));
      ghost var landed := S.Next(S.Differs, Contents(), S.Arrive(id, GrantsOf(r)));
      if r.Ok? {
        snapCache := snapCache[CacheKey(q.granter, q.grantee) := r.grants];
      }
      flying := flying - {id};
      events, log := events + 1, log + [S.Arrive(id, GrantsOf(r))];
      assert Contents() == landed;
    }

    // A snapped query nothing happens during.
    method SnapAlone(q: Query, outcomes: nat -> Outcome) returns (r: Result)
      requires Valid() && Settled() && ':' !in q.granter
      modifies this`snapCache, this`snapCacheHeight, this`flying, this`events, this`log
      ensures Valid() && Settled() && flying == old(flying)
      ensures r.Ok? ==> r.grants == archive.grants(q.height, q.granter, q.grantee)
      ensures r.Err? ==> Outcomes(r, archive.grants(q.height, q.granter, q.grantee), outcomes)
      ensures snapCacheHeight == q.height && (Holds(Contents().cache, q) <==> r.Ok?)
      ensures old(Holds(Contents().cache, q)) ==> r.Ok?
    {
      hide CacheKey, Outcomes, S.After, S.Next, S.Hit, TellsArchive, Requests, Logged, RightIn, SettledIn;
      HitStands(Contents(), q);
      var id, hit := BeginSnap(q);
      SettledOnes(archive, Contents().cache, q.granter, q.grantee);
      if hit.Some? {
        return Ok(hit.value);
      }
      ghost var issued := Contents();
      r := EndSnap(id, outcomes);
      LandsInCache(issued, id, q, r);
      assert old(flying)[id := q] - {id} == old(flying);
    }

    method AuthzGrantsAt(height: nat, granter: string, grantee: string, isSnap: bool, outcomes: nat -> Outcome)
      returns (r: Result)
      requires Valid() && Settled() && ':' !in granter
      modifies this`snapCache, this`snapCacheHeight, this`flying, this`events, this`log
      ensures Valid() && Settled() && flying == old(flying)
      ensures r.Ok? ==> r.grants == archive.grants(height, granter, grantee)
      ensures r.Err? || !isSnap ==> Outcomes(r, archive.grants(height, granter, grantee), outcomes)
      ensures !isSnap ==> Contents() == old(Contents())
      ensures isSnap ==> var q := Query(height, granter, grantee);
                && snapCacheHeight == height && (Holds(Contents().cache, q) <==> r.Ok?)
                && (old(Holds(Contents().cache, q)) ==> r.Ok?)
    {
      if isSnap {
        r := SnapAlone(Query(height, granter, grantee), outcomes);
      } else {
        r := ReadGrants(height, granter, grantee, outcomes);
      }
    }

    /** Every answer is the archive's at the height asked for, or, once that height has been refused as
        pruned, at the next multiple of 100; whatever was asked before, at whatever heights. A height is
        remembered exactly when it is no multiple of 100 and the first request not served is refused as pruned;
        from that very query on it is asked for at the next multiple alone, and what that answers is kept. */
    method AuthzGrantsQuery(height: nat, granter: string, grantee: string,
                            exact: nat -> Outcome, snap: nat -> Outcome)
      returns (r: Result)
      requires Valid() && Settled() && ':' !in granter
      modifies this
      ensures Valid() && Settled() && flying == old(flying)
      ensures var list := archive.grants(height, granter, grantee);
              && (height in prunedHeights <==>
                    height in old(prunedHeights) || (height % 100 != 0 && RefusedAsPruned(|list|, exact)))
              && (height !in prunedHeights ==> Outcomes(r, list, exact) && Contents() == old(Contents()))
      ensures forall h :: h != height ==> (h in prunedHeights <==> h in old(prunedHeights))
      ensures height in prunedHeights ==>
                forall s: nat :: NextKept(height, s) ==>
                  var list := archive.grants(s, granter, grantee);
                  && (r.Ok? ==> r.grants == list)
                  && (r.Err? ==> Outcomes(r, list, snap))
                  && ((forall i :: 0 <= i < PageCount(|list|) ==> snap(i).Served?) ==> r.Ok?)
                  && var q := Query(s, granter, grantee);
                     && snapCacheHeight == s && (Holds(Contents().cache, q) <==> r.Ok?)
                     && (old(Holds(Contents().cache, q)) ==> r.Ok?)
    {
      hide Outcomes, FirstRefused, RefusedAsPruned, PageCount, Holds;
      var snapped := Snapped(height);
      SnappedIsNextKept(height);
      hide NextKept, Snapped;
      if height in prunedHeights {
        r := AuthzGrantsAt(snapped, granter, grantee, true, snap);
        ServedMeansOk(r, archive.grants(snapped, granter, grantee), snap);
        return;
      }
      r := AuthzGrantsAt(height, granter, grantee, false, exact);
      PrunedErrors(r, archive.grants(height, granter, grantee), exact);
      if r.Ok? || snapped == height || !r.error.PrunedState? {
        return;
      }
      prunedHeights := prunedHeights + {height};
      r := AuthzGrantsAt(snapped, granter, grantee, true, snap);
      ServedMeansOk(r, archive.grants(snapped, granter, grantee), snap);
    }
  }

  /** Were ':' allowed in a granter, two pairs could share a cache entry. */
  lemma ColonsCollide()
    ensures CacheKey("a:b", "c") == CacheKey("a", "b:c")
  {
  }
}
