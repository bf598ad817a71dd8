/** The index of active authz grants: driven by events, refreshed when a grant is consumed, swept by
    block time: src/postgres/authz.ts, the authz cases of src/sync_handlers/event_data_sync.ts and the
    sweep of src/sync/sync_blocks.ts. */
module AuthzGrants {
  import opened Wrappers

  datatype GrantKey = GrantKey(granter: string, grantee: string, msgTypeUrl: string)

  type Time = int

  datatype Payload = Payload(
    authorizationType: Option<string>, authorization: Option<string>, expiration: Option<Time>)

  datatype Provenance = Provenance(height: nat, time: Time, txHash: string, entityId: Option<string>)

  datatype Row = Row(payload: Payload, provenance: Provenance)

  type GrantTable = map<GrantKey, Row>

  // One statement that can change the table.
  datatype Action =
    | Upsert(key: GrantKey, payload: Payload, provenance: Provenance)
    | Delete(key: GrantKey)
    | Refresh(key: GrantKey, payload: Payload)
    | Sweep(blockTime: Time)

  predicate Expired(payload: Payload, blockTime: Time) {
    payload.expiration.Some? && payload.expiration.value <= blockTime
  }

  function Apply(table: GrantTable, action: Action): GrantTable {
    match action
    case Upsert(key, payload, provenance) => table[key := Row(payload, provenance)]
    case Delete(key) => table - {key}
    case Refresh(key, payload) => if key in table then table[key := table[key].(payload := payload)] else table
    case Sweep(blockTime) => map k | k in table && !Expired(table[k].payload, blockTime) :: table[k]
  }

  function TableAfter(history: seq<Action>): GrantTable {
    if history == [] then map[]
    else Apply(TableAfter(history[..|history| - 1]), history[|history| - 1])
  }

  // -------------------------------------------------------------------------
  // The same, read off the history of one key
  // -------------------------------------------------------------------------

  predicate Decides(action: Action, key: GrantKey) {
    (action.Upsert? || action.Delete?) && action.key == key
  }

  // g is the key's latest grant-or-revoke, and it is a grant.
  predicate LatestGrant(history: seq<Action>, key: GrantKey, g: int) {
    && 0 <= g < |history|
    && history[g].Upsert? && history[g].key == key
    && forall i :: g < i < |history| ==> !Decides(history[i], key)
  }

  // The payload given last before action j to the grant made by action g.
  function PayloadBefore(history: seq<Action>, key: GrantKey, g: nat, j: nat): Payload
    requires g < j <= |history| && history[g].Upsert?
  {
    if j == g + 1 then history[g].payload
    else if history[j - 1].Refresh? && history[j - 1].key == key then history[j - 1].payload
    else PayloadBefore(history, key, g, j - 1)
  }

  // No sweep since has reached the expiration then stored.
  predicate Unswept(history: seq<Action>, key: GrantKey, g: nat)
    requires g < |history| && history[g].Upsert?
  {
    forall s :: g < s < |history| && history[s].Sweep? ==>
      !Expired(PayloadBefore(history, key, g, s), history[s].blockTime)
  }

  predicate Active(history: seq<Action>, key: GrantKey, g: int) {
    LatestGrant(history, key, g) && Unswept(history, key, g)
  }

  lemma {:induction false} PayloadPrefix(history: seq<Action>, last: Action, key: GrantKey, g: nat, j: nat)
    requires g < j <= |history| && history[g].Upsert?
    ensures PayloadBefore(history + [last], key, g, j) == PayloadBefore(history, key, g, j)
  {
    if j > g + 1 {
      PayloadPrefix(history, last, key, g, j - 1);
    }
  }

  lemma ActiveNext(history: seq<Action>, last: Action, key: GrantKey, g: nat)
    requires g < |history|
    ensures Active(history + [last], key, g) <==>
              Active(history, key, g) && !Decides(last, key)
              && (last.Sweep? ==> !Expired(PayloadBefore(history, key, g, |history|), last.blockTime))
    ensures Active(history, key, g) ==>
              PayloadBefore(history + [last], key, g, |history| + 1) ==
              if last.Refresh? && last.key == key then last.payload else PayloadBefore(history, key, g, |history|)
  {
    var after := history + [last];
    assert forall i :: 0 <= i < |history| ==> after[i] == history[i];
    if history[g].Upsert? {
      forall s | g < s <= |history|
        ensures PayloadBefore(after, key, g, s) == PayloadBefore(history, key, g, s)
      {
        PayloadPrefix(history, last, key, g, s);
      }
    }
    assert after[|history|] == last;
    hide PayloadBefore, Expired;
    if Active(history, key, g) && !Decides(last, key)
       && (last.Sweep? ==> !Expired(PayloadBefore(history, key, g, |history|), last.blockTime)) {
      assert LatestGrant(after, key, g);
    }
    if Active(after, key, g) {
      assert !Decides(after[|history|], key);
      assert LatestGrant(history, key, g);
      forall s | g < s < |history| && history[s].Sweep?
        ensures !Expired(PayloadBefore(history, key, g, s), history[s].blockTime)
      {
        assert after[s].Sweep?;
      }
    }
  }

  lemma ActiveNow(history: seq<Action>, last: Action, key: GrantKey)
    ensures Active(history + [last], key, |history|) <==> last.Upsert? && last.key == key
  {
    assert (history + [last])[|history|] == last;
  }

  /** The table against its history: a key is present exactly when its latest grant-or-revoke is a
      grant and no sweep since has reached the expiration then stored; the row holds the payload given
      last since that grant, and that grant's provenance. */
  lemma {:induction false} TableIsHistory(history: seq<Action>, key: GrantKey)
    ensures key in TableAfter(history) <==> exists g :: Active(history, key, g)
    ensures forall g :: Active(history, key, g) ==>
              && key in TableAfter(history)
              && TableAfter(history)[key] ==
                 Row(PayloadBefore(history, key, g, |history|), history[g].provenance)
  {
    if history != [] {
      var init, last := history[..|history| - 1], history[|history| - 1];
      assert history == init + [last];
      TableIsHistory(init, key);
      ActiveNow(init, last, key);
      forall g: nat | g < |init|
        ensures Active(history, key, g) <==>
                  Active(init, key, g) && !Decides(last, key)
                  && (last.Sweep? ==> !Expired(PayloadBefore(init, key, g, |init|), last.blockTime))
        ensures Active(init, key, g) ==>
                  PayloadBefore(history, key, g, |history|) ==
                  if last.Refresh? && last.key == key then last.payload else PayloadBefore(init, key, g, |init|)
      {
        ActiveNext(init, last, key, g);
      }
      assert TableAfter(history) == Apply(TableAfter(init), last);
      hide Active, PayloadBefore, TableAfter, Expired;
      if g :| Active(init, key, g) {
        assert key in TableAfter(history) ==> Active(history, key, g) || Active(history, key, |init|);
      }
    }
  }

  // -------------------------------------------------------------------------
  // What follows
  // -------------------------------------------------------------------------

  /** A refresh changes one payload at most: it adds and removes no key and touches no provenance. */
  lemma RefreshKeepsGrants(history: seq<Action>, key: GrantKey, payload: Payload)
    ensures var before, after := TableAfter(history), TableAfter(history + [Refresh(key, payload)]);
            && after.Keys == before.Keys
            && forall k :: k in after ==>
                 after[k].provenance == before[k].provenance
                 && after[k].payload == if k == key then payload else before[k].payload
  {
    assert (history + [Refresh(key, payload)])[..|history|] == history;
  }

  /** A key that is not there, swept or revoked or never granted, comes back only by a grant. */
  lemma {:induction false} OnlyGrantsAdd(history: seq<Action>, later: seq<Action>, key: GrantKey)
    requires key !in TableAfter(history)
    requires forall i :: 0 <= i < |later| ==> !(later[i].Upsert? && later[i].key == key)
    ensures key !in TableAfter(history + later)
  {
    if later == [] {
      assert history + later == history;
    } else {
      var init := later[..|later| - 1];
      OnlyGrantsAdd(history, init, key);
      assert (history + later)[..|history + later| - 1] == history + init;
    }
  }

  predicate TimesNeverDecrease(history: seq<Action>) {
    forall i, j :: 0 <= i < j < |history| && history[i].Sweep? && history[j].Sweep? ==>
      history[i].blockTime <= history[j].blockTime
  }

  lemma {:induction false} PayloadUnchanged(history: seq<Action>, key: GrantKey, g: nat, j: nat)
    requires g < j <= |history| && history[g].Upsert?
    requires forall i :: g < i < j ==> !(history[i].Refresh? && history[i].key == key)
    ensures PayloadBefore(history, key, g, j) == history[g].payload
  {
    if j > g + 1 {
      PayloadUnchanged(history, key, g, j - 1);
    }
  }

  /** With block times that never decrease, after each block's sweep no row is left that any block so
      far has outlived; and a grant not refreshed since stands exactly while the last block has not
      reached its expiration. */
  lemma AfterEachBlock(history: seq<Action>, key: GrantKey, g: nat)
    requires history != [] && history[|history| - 1].Sweep? && TimesNeverDecrease(history)
    ensures forall k, i :: k in TableAfter(history) && 0 <= i < |history| && history[i].Sweep? ==>
              var expiration := TableAfter(history)[k].payload.expiration;
              expiration.None? || expiration.value > history[i].blockTime
    ensures LatestGrant(history, key, g)
            && (forall i :: g < i < |history| ==> !(history[i].Refresh? && history[i].key == key)) ==>
              (key in TableAfter(history) <==>
                 var expiration := history[g].payload.expiration;
                 expiration.None? || expiration.value > history[|history| - 1].blockTime)
  {
    var last := history[|history| - 1];
    if LatestGrant(history, key, g)
       && (forall i :: g < i < |history| ==> !(history[i].Refresh? && history[i].key == key))
    {
      forall j | g < j <= |history|
        ensures PayloadBefore(history, key, g, j) == history[g].payload
      {
        PayloadUnchanged(history, key, g, j);
      }
      TableIsHistory(history, key);
      OneLatestGrant(history, key, g);
      hide PayloadBefore, TableAfter, LatestGrant;
    }
  }

  lemma OneLatestGrant(history: seq<Action>, key: GrantKey, g: int)
    requires LatestGrant(history, key, g)
    ensures forall g' :: LatestGrant(history, key, g') ==> g' == g
  {
    forall g' | LatestGrant(history, key, g')
      ensures g' == g
    {
      assert Decides(history[g], key) && Decides(history[g'], key);
    }
  }

  // -------------------------------------------------------------------------
  // Events
  // -------------------------------------------------------------------------

  const WITHDRAW_PAYMENT := "/ixo.claims.v1beta1.MsgWithdrawPayment"
  const WITHDRAW_PAYLOAD := Payload(Some("/ixo.claims.v1beta1.WithdrawPaymentAuthorization"), None, None)
  const BARE_PAYLOAD := Payload(None, None, None)

  // A grant as the archive reports it, with the message type its authorization maps to, if any.
  datatype LiveGrant = LiveGrant(msgTypeUrl: Option<string>, payload: Payload)

  datatype LiveAnswer = Found(grants: seq<LiveGrant>) | QueryFailed

  // The message the event points at: a readable grant, one whose richer companion event follows in the
  // same transaction, or anything else.
  datatype Message = MsgGrant(payload: Payload) | EntityGrant | Unreadable

  datatype AuthzEvent =
    | GrantAuthz(key: GrantKey, origin: Provenance, msg: Message, live: LiveAnswer)
    | RevokeAuthz(key: GrantKey)
    | EntityAuthzCreated(granter: string, grantee: string, grant: Option<LiveGrant>, origin: Provenance)
    | EntityAuthzRevoked(key: GrantKey)
    | GrantConsumed(key: GrantKey, live: LiveAnswer)

  predicate FirstAt(grants: seq<LiveGrant>, msgTypeUrl: string, i: int) {
    && 0 <= i < |grants| && grants[i].msgTypeUrl == Some(msgTypeUrl)
    && forall j :: 0 <= j < i ==> grants[j].msgTypeUrl != Some(msgTypeUrl)
  }

  function FirstMatch(grants: seq<LiveGrant>, msgTypeUrl: string): (r: Option<Payload>)
    ensures r.None? <==> forall i :: 0 <= i < |grants| ==> grants[i].msgTypeUrl != Some(msgTypeUrl)
    ensures forall i :: FirstAt(grants, msgTypeUrl, i) ==> r == Some(grants[i].payload)
  {
    if grants == [] then None
    else if grants[0].msgTypeUrl == Some(msgTypeUrl) then Some(grants[0].payload)
    else
      assert forall i :: 1 <= i < |grants| ==> grants[i] == grants[1..][i - 1];
      assert forall i :: FirstAt(grants, msgTypeUrl, i) ==> FirstAt(grants[1..], msgTypeUrl, i - 1);
      FirstMatch(grants[1..], msgTypeUrl)
  }

  function Hydrated(key: GrantKey, live: LiveAnswer): Option<Payload> {
    if live.Found? then FirstMatch(live.grants, key.msgTypeUrl) else None
  }

  function ActionOf(e: AuthzEvent): Option<Action> {
    match e
    case GrantAuthz(key, origin, msg, live) =>
      if key.msgTypeUrl == WITHDRAW_PAYMENT then Some(Upsert(key, WITHDRAW_PAYLOAD, origin))
      else if msg.MsgGrant? then Some(Upsert(key, msg.payload, origin))
      else if msg.EntityGrant? then None
      else
        var payload := Hydrated(key, live);
        Some(Upsert(key, if payload.Some? then payload.value else BARE_PAYLOAD, origin))
    case RevokeAuthz(key) => Some(Delete(key))
    case EntityAuthzCreated(granter, grantee, grant, origin) =>
      if grant.Some? && grant.value.msgTypeUrl.Some?
      then Some(Upsert(GrantKey(granter, grantee, grant.value.msgTypeUrl.value), grant.value.payload, origin)) else None
    case EntityAuthzRevoked(key) => Some(Delete(key))
    case GrantConsumed(key, live) =>
      var payload := Hydrated(key, live);
      if key.granter == "" || key.grantee == "" || payload.None? then None else Some(Refresh(key, payload.value))
  }

  function ActionsOf(events: seq<AuthzEvent>): seq<Action> {
    if events == [] then []
    else
      var action := ActionOf(events[|events| - 1]);
      ActionsOf(events[..|events| - 1]) + if action.Some? then [action.value] else []
  }

  /** No grant event is lost: it leaves a row for its key with its own provenance, bare if its payload
      cannot be found, unless a richer companion event is to write it. */
  lemma GrantIsRecorded(history: seq<Action>, e: AuthzEvent)
    requires e.GrantAuthz? && (!e.msg.EntityGrant? || e.key.msgTypeUrl == WITHDRAW_PAYMENT)
    ensures var table := TableAfter(history + ActionsOf([e]));
            && e.key in table && table[e.key].provenance == e.origin
            && (e.msg.Unreadable? && e.key.msgTypeUrl != WITHDRAW_PAYMENT && Hydrated(e.key, e.live).None? ==>
                  table[e.key].payload == BARE_PAYLOAD)
  {
    assert [e][..0] == [] && ActionsOf([e]) == [] + [ActionOf(e).value];
    assert (history + [ActionOf(e).value])[..|history|] == history;
  }

  /** An entity grant is announced twice in one transaction, and so is its revocation: together the two
      events write the one full row, or remove it, and touch no other. */
  lemma CompanionsAgree(history: seq<Action>, key: GrantKey, origin: Provenance, full: Provenance, payload: Payload,
                        live: LiveAnswer)
    requires key.msgTypeUrl != WITHDRAW_PAYMENT
    ensures var grant := LiveGrant(Some(key.msgTypeUrl), payload);
            TableAfter(history + ActionsOf([GrantAuthz(key, origin, EntityGrant, live),
                                            EntityAuthzCreated(key.granter, key.grantee, Some(grant), full)]))
            == TableAfter(history)[key := Row(payload, full)]
    ensures TableAfter(history + ActionsOf([RevokeAuthz(key), EntityAuthzRevoked(key)])) == TableAfter(history) - {key}
  {
    var created := EntityAuthzCreated(key.granter, key.grantee, Some(LiveGrant(Some(key.msgTypeUrl), payload)), full);
    TwoEvents(GrantAuthz(key, origin, EntityGrant, live), created);
    TwoEvents(RevokeAuthz(key), EntityAuthzRevoked(key));
    var upsert := Upsert(key, payload, full);
    assert [] + [upsert] == [upsert] && (history + [upsert])[..|history|] == history;
    var once := history + [Delete(key)];
    assert once[..|history|] == history;
    assert history + ([Delete(key)] + [Delete(key)]) == once + [Delete(key)];
    assert (once + [Delete(key)])[..|once|] == once;
    hide ActionsOf;
  }

  lemma TwoEvents(a: AuthzEvent, b: AuthzEvent)
    ensures ActionsOf([a, b]) == (if ActionOf(a).Some? then [ActionOf(a).value] else [])
                                 + (if ActionOf(b).Some? then [ActionOf(b).value] else [])
  {
    hide ActionOf;
    assert [a, b][..1] == [a] && [a][..0] == [];
    assert ActionsOf([a]) == [] + (if ActionOf(a).Some? then [ActionOf(a).value] else []);
  }

  // -------------------------------------------------------------------------
  // What an event leaves, read off the table and the event alone
  // -------------------------------------------------------------------------

  ghost predicate OthersKept(before: GrantTable, key: GrantKey, after: GrantTable) {
    forall k :: k != key ==> (k in after <==> k in before) && (k in before ==> after[k] == before[k])
  }

  ghost predicate Wrote(before: GrantTable, key: GrantKey, row: Row, after: GrantTable) {
    key in after && after[key] == row && OthersKept(before, key, after)
  }

  // The first live grant for the message type has this payload.
  ghost predicate LiveFor(live: LiveAnswer, msgTypeUrl: string, payload: Payload) {
    live.Found? && exists i :: FirstAt(live.grants, msgTypeUrl, i) && live.grants[i].payload == payload
  }

  ghost predicate NoneLive(live: LiveAnswer, msgTypeUrl: string) {
    live.Found? ==> forall i :: 0 <= i < |live.grants| ==> live.grants[i].msgTypeUrl != Some(msgTypeUrl)
  }

  ghost predicate GrantLeaves(before: GrantTable, e: AuthzEvent, after: GrantTable)
    requires e.GrantAuthz?
  {
    if e.key.msgTypeUrl == "/ixo.claims.v1beta1.MsgWithdrawPayment" then
      Wrote(before, e.key,
            Row(Payload(Some("/ixo.claims.v1beta1.WithdrawPaymentAuthorization"), None, None), e.origin), after)
    else
      match e.msg
      case MsgGrant(payload) => Wrote(before, e.key, Row(payload, e.origin), after)
      case EntityGrant => after == before
      case Unreadable =>
        && (forall p :: LiveFor(e.live, e.key.msgTypeUrl, p) ==> Wrote(before, e.key, Row(p, e.origin), after))
        && (NoneLive(e.live, e.key.msgTypeUrl) ==>
              Wrote(before, e.key, Row(Payload(None, None, None), e.origin), after))
  }

  ghost predicate ConsumptionLeaves(before: GrantTable, key: GrantKey, live: LiveAnswer, after: GrantTable) {
    if key.granter == "" || key.grantee == "" || NoneLive(live, key.msgTypeUrl) || key !in before then after == before
    else
      forall p :: LiveFor(live, key.msgTypeUrl, p) ==>
        Wrote(before, key, Row(p, before[key].provenance), after)
  }

  ghost predicate EventLeaves(before: GrantTable, e: AuthzEvent, after: GrantTable) {
    match e
    case GrantAuthz(_, _, _, _) => GrantLeaves(before, e, after)
    case RevokeAuthz(key) => key !in after && OthersKept(before, key, after)
    case EntityAuthzCreated(granter, grantee, grant, origin) =>
      if grant.None? || grant.value.msgTypeUrl.None? then after == before
      else
        var key := GrantKey(granter, grantee, grant.value.msgTypeUrl.value);
        Wrote(before, key, Row(grant.value.payload, origin), after)
    case EntityAuthzRevoked(key) => key !in after && OthersKept(before, key, after)
    case GrantConsumed(key, live) => ConsumptionLeaves(before, key, live, after)
  }

  // The sweep: what has expired by the block's time is gone, all else is as it was.
  ghost predicate SweepLeaves(before: GrantTable, blockTime: Time, after: GrantTable) {
    forall k ::
      && (k in after <==> k in before && (before[k].payload.expiration.Some? ==>
                                            before[k].payload.expiration.value > blockTime))
      && (k in after ==> after[k] == before[k])
  }

  lemma {:induction false} FirstMatchStands(grants: seq<LiveGrant>, msgTypeUrl: string)
    ensures FirstMatch(grants, msgTypeUrl).Some? ==>
              exists i :: FirstAt(grants, msgTypeUrl, i) && grants[i].payload == FirstMatch(grants, msgTypeUrl).value
  {
    if grants != [] {
      if grants[0].msgTypeUrl == Some(msgTypeUrl) {
        assert FirstAt(grants, msgTypeUrl, 0);
      } else {
        FirstMatchStands(grants[1..], msgTypeUrl);
        if i :| FirstAt(grants[1..], msgTypeUrl, i) {
          assert FirstAt(grants, msgTypeUrl, i + 1);
        }
      }
    }
  }

  lemma HydratedIsLive(key: GrantKey, live: LiveAnswer)
    ensures Hydrated(key, live).None? <==> NoneLive(live, key.msgTypeUrl)
    ensures forall p :: LiveFor(live, key.msgTypeUrl, p) <==> Hydrated(key, live) == Some(p)
  {
    if live.Found? {
      FirstMatchStands(live.grants, key.msgTypeUrl);
    }
  }

  // The table after an event with its action, if it has one.
  function Acted(table: GrantTable, action: Option<Action>): GrantTable {
    if action.Some? then Apply(table, action.value) else table
  }

  /** The action taken for an event leaves what the event says: a revocation removes its row; a grant writes
      its own payload, or the one found live, or none; a consumption replaces one payload; all else stays. */
  lemma ActionLeaves(table: GrantTable, e: AuthzEvent)
    ensures EventLeaves(table, e, Acted(table, ActionOf(e)))
  {
    hide GrantLeaves, ConsumptionLeaves, Hydrated;
    match e {
      case GrantAuthz(_, _, _, _) => GrantActionLeaves(table, e);
      case GrantConsumed(_, _) => ConsumptionActionLeaves(table, e);
      case _ =>
    }
  }

  lemma GrantActionLeaves(table: GrantTable, e: AuthzEvent)
    requires e.GrantAuthz?
    ensures GrantLeaves(table, e, Acted(table, ActionOf(e)))
  {
    hide Hydrated, LiveFor, NoneLive;
    HydratedIsLive(e.key, e.live);
  }

  lemma ConsumptionActionLeaves(table: GrantTable, e: AuthzEvent)
    requires e.GrantConsumed?
    ensures ConsumptionLeaves(table, e.key, e.live, Acted(table, ActionOf(e)))
  {
    hide Hydrated, LiveFor, NoneLive;
    HydratedIsLive(e.key, e.live);
  }

  lemma OneMore(history: seq<Action>, action: Option<Action>)
    ensures TableAfter(history + if action.Some? then [action.value] else []) == Acted(TableAfter(history), action)
  {
    if action.Some? {
      assert (history + [action.value])[..|history|] == history;
    } else {
      assert history + [] == history;
    }
  }

  // -------------------------------------------------------------------------
  // The table, updated in place
  // -------------------------------------------------------------------------

  class AuthzIndex {
    var grants: GrantTable
    ghost var history: seq<Action>

    ghost predicate Valid()
      reads this
    {
      grants == TableAfter(history)
    }

    constructor ()
      ensures Valid() && history == []
    {
      grants, history := map[], [];
    }

    method UpsertAuthzGrant(key: GrantKey, payload: Payload, provenance: Provenance)
      requires Valid()
      modifies this
      ensures Valid() && history == old(history) + [Upsert(key, payload, provenance)]
    {
      grants := grants[key := Row(payload, provenance)];
      history := history + [Upsert(key, payload, provenance)];
      assert history[..|history| - 1] == old(history);
    }

    method DeleteAuthzGrant(key: GrantKey)
      requires Valid()
      modifies this
      ensures Valid() && history == old(history) + [Delete(key)]
    {
      grants := grants - {key};
      history := history + [Delete(key)];
      assert history[..|history| - 1] == old(history);
    }

    method RefreshAuthzGrantPayload(key: GrantKey, payload: Payload) returns (rowCount: nat)
      requires Valid()
      modifies this
      ensures Valid() && history == old(history) + [Refresh(key, payload)]
      ensures rowCount == if key in old(grants) then 1 else 0
    {
      rowCount := 0;
      if key in grants {
        grants := grants[key := grants[key].(payload := payload)];
        rowCount := 1;
      }
      history := history + [Refresh(key, payload)];
      assert history[..|history| - 1] == old(history);
    }

    method DeleteExpiredAuthzGrants(blockTime: Time) returns (rowCount: int)
      requires Valid()
      modifies this
      ensures Valid() && history == old(history) + [Sweep(blockTime)]
      ensures rowCount == |old(grants)| - |grants|
    {
      rowCount := |grants|;
      grants := map k | k in grants && !Expired(grants[k].payload, blockTime) :: grants[k];
      rowCount := rowCount - |grants|;
      history := history + [Sweep(blockTime)];
      assert history[..|history| - 1] == old(history);
    }

    method SyncEvent(e: AuthzEvent)
      requires Valid()
      modifies this
      ensures Valid() && history == old(history) + if ActionOf(e).Some? then [ActionOf(e).value] else []
      ensures EventLeaves(old(grants), e, grants)
    {
      ActionLeaves(grants, e);
      OneMore(history, ActionOf(e));
      hide EventLeaves, TableAfter, Hydrated, Acted, Apply;
      assert history + [] == history;
      match e {
        case GrantAuthz(key, origin, msg, live) =>
          if key.msgTypeUrl == WITHDRAW_PAYMENT {
            UpsertAuthzGrant(key, WITHDRAW_PAYLOAD, origin);
            return;
          }
          if msg.MsgGrant? {
            UpsertAuthzGrant(key, msg.payload, origin);
            return;
          }
          if msg.EntityGrant? {
            return;
          }
          var payload := Hydrated(key, live);
          UpsertAuthzGrant(key, if payload.Some? then payload.value else BARE_PAYLOAD, origin);
        case RevokeAuthz(key) =>
          DeleteAuthzGrant(key);
        case EntityAuthzCreated(granter, grantee, grant, origin) =>
          if grant.Some? && grant.value.msgTypeUrl.Some? {
            UpsertAuthzGrant(GrantKey(granter, grantee, grant.value.msgTypeUrl.value), grant.value.payload, origin);
          }
        case EntityAuthzRevoked(key) =>
          DeleteAuthzGrant(key);
        case GrantConsumed(key, live) =>
          var payload := Hydrated(key, live);
          if key.granter != "" && key.grantee != "" && payload.Some? {
            var _ := RefreshAuthzGrantPayload(key, payload.value);
          }
      }
    }

    /** The events of one block, then its sweep: the table goes from event to event as each of them says, and
        what has then expired is removed. */
    method SyncBlock(events: seq<AuthzEvent>, blockTime: Time) returns (ghost tables: seq<GrantTable>)
      requires Valid()
      modifies this
      ensures Valid() && history == old(history) + ActionsOf(events) + [Sweep(blockTime)]
      ensures |tables| == |events| + 1 && tables[0] == old(grants)
      ensures forall i :: 0 <= i < |events| ==> EventLeaves(tables[i], events[i], tables[i + 1])
      ensures SweepLeaves(tables[|events|], blockTime, grants)
    {
      hide EventLeaves, TableAfter, ActionOf;
      assert events[..|events|] == events;
      tables := [grants];
      for i := 0 to |events|
        invariant Valid() && history == old(history) + ActionsOf(events[..i])
        invariant |tables| == i + 1 && tables[0] == old(grants) && tables[i] == grants
        invariant forall j :: 0 <= j < i ==> EventLeaves(tables[j], events[j], tables[j + 1])
      {
        SyncEvent(events[i]);
        tables := tables + [grants];
        assert events[..i + 1][..i] == events[..i];
      }
      OneMore(history, Some(Sweep(blockTime)));
      var _ := DeleteExpiredAuthzGrants(blockTime);
    }
  }
}
