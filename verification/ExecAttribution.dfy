/** Whose authorization a claim message consumed: the depth-first search through nested MsgExec
    messages of src/util/authz.ts. */
module ExecAttribution {
  import opened Wrappers

  // The body of a message with the claim's type, as far as its codec can read it.
  datatype Body = Undecodable | NoCodec | Decoded(claimId: string)

  // An already decoded tree; a nested MsgExec whose bytes do not decode is a leaf.
  datatype Msg = Exec(exec: ExecMsg) | UndecodableExec | Plain(typeUrl: string, body: Body)

  datatype ExecMsg = ExecMsg(grantee: string, msgs: seq<Msg>)

  // What is looked for; an empty claim id matches every message of the type.
  datatype Claim = Claim(typeUrl: string, claimId: string)

  predicate Matches(m: Msg, c: Claim) {
    && m.Plain? && m.typeUrl == c.typeUrl
    && (c.claimId == "" || m.body.NoCodec? || m.body == Decoded(c.claimId))
  }

  // -------------------------------------------------------------------------
  // The search
  // -------------------------------------------------------------------------

  function Walk(exec: ExecMsg, c: Claim): (r: Option<string>)
    ensures r != Some("")
    decreases exec, |exec.msgs| + 1
  {
    if exec.grantee == "" then None else Scan(exec, 0, c)
  }

  // The messages of one MsgExec from index i on.
  function Scan(exec: ExecMsg, i: nat, c: Claim): (r: Option<string>)
    requires exec.grantee != "" && i <= |exec.msgs|
    ensures r != Some("")
    decreases exec, |exec.msgs| - i
  {
    if i == |exec.msgs| then None
    else
      var m := exec.msgs[i];
      if Matches(m, c) then Some(exec.grantee)
      else
        var found := if m.Exec? then Walk(m.exec, c) else None;
        if found.Some? then found else Scan(exec, i + 1, c)
  }

  function ExecChainGrantee(top: Option<Msg>, c: Claim): Option<string> {
    if top.Some? && top.value.Exec? then Walk(top.value.exec, c) else None
  }

  // -------------------------------------------------------------------------
  // The reference: paths into the tree
  // -------------------------------------------------------------------------

  // A message of the claim's type, for the claim as far as that can be told.
  predicate IsForClaim(m: Msg, c: Claim) {
    match m
    case Plain(typeUrl, body) =>
      typeUrl == c.typeUrl
      && (c.claimId != "" ==>
            match body
            case Decoded(claimId) => claimId == c.claimId
            case NoCodec => true
            case Undecodable => false)
    case _ => false
  }

  // A path is the index to take at each level; it hits when every MsgExec on it has a grantee and the
  // message at its end matches.
  predicate Hits(exec: ExecMsg, path: seq<nat>, c: Claim)
    decreases |path|
  {
    && exec.grantee != "" && path != [] && path[0] < |exec.msgs|
    && match exec.msgs[path[0]]
       case Exec(inner) => Hits(inner, path[1..], c)
       case UndecodableExec => false
       case Plain(_, _) => |path| == 1 && IsForClaim(exec.msgs[path[0]], c)
  }

  // The grantee of the MsgExec directly around the end of the path.
  function WrapperOf(exec: ExecMsg, path: seq<nat>, c: Claim): string
    requires Hits(exec, path, c)
    decreases |path|
  {
    match exec.msgs[path[0]]
    case Exec(inner) => WrapperOf(inner, path[1..], c)
    case Plain(_, _) => exec.grantee
  }

  // Depth-first order.
  predicate Precedes(p: seq<nat>, q: seq<nat>) {
    p != [] && q != [] && (p[0] < q[0] || (p[0] == q[0] && Precedes(p[1..], q[1..])))
  }

  ghost predicate FirstHit(exec: ExecMsg, path: seq<nat>, c: Claim) {
    Hits(exec, path, c) && forall q :: Hits(exec, q, c) && q != path ==> Precedes(path, q)
  }

  ghost predicate NoHit(exec: ExecMsg, c: Claim) {
    forall q :: !Hits(exec, q, c)
  }

  lemma {:induction false} NotBoth(p: seq<nat>, q: seq<nat>)
    ensures !(Precedes(p, q) && Precedes(q, p))
  {
    if p != [] && q != [] {
      NotBoth(p[1..], q[1..]);
    }
  }

  // The first hit among the messages from index i on.
  ghost predicate FirstFrom(exec: ExecMsg, i: nat, path: seq<nat>, c: Claim) {
    && Hits(exec, path, c) && path[0] >= i
    && forall q :: Hits(exec, q, c) && q[0] >= i && q != path ==> Precedes(path, q)
  }

  ghost predicate NoneFrom(exec: ExecMsg, i: nat, c: Claim) {
    forall q :: Hits(exec, q, c) ==> q[0] < i
  }

  lemma {:induction false} ScanFindsFirst(exec: ExecMsg, i: nat, c: Claim) returns (p: seq<nat>)
    requires exec.grantee != "" && i <= |exec.msgs|
    ensures Scan(exec, i, c).None? ==> NoneFrom(exec, i, c)
    ensures Scan(exec, i, c).Some? ==>
              FirstFrom(exec, i, p, c) && Scan(exec, i, c) == Some(WrapperOf(exec, p, c))
    decreases exec, |exec.msgs| - i
  {
    p := [];
    if i < |exec.msgs| {
      var m := exec.msgs[i];
      if Matches(m, c) {
        p := [i];
      } else {
        var head: seq<nat> := [];
        if m.Exec? && m.exec.grantee != "" {
          head := ScanFindsFirst(m.exec, 0, c);
        }
        if m.Exec? && Walk(m.exec, c).Some? {
          p := [i] + head;
          FirstInside(exec, i, head, c);
        } else {
          p := ScanFindsFirst(exec, i + 1, c);
          NoneInside(exec, i, c);
        }
      }
    }
  }

  lemma FirstInside(exec: ExecMsg, i: nat, head: seq<nat>, c: Claim)
    requires exec.grantee != "" && i < |exec.msgs| && exec.msgs[i].Exec?
    requires FirstFrom(exec.msgs[i].exec, 0, head, c)
    ensures FirstFrom(exec, i, [i] + head, c)
    ensures WrapperOf(exec, [i] + head, c) == WrapperOf(exec.msgs[i].exec, head, c)
  {
    var p := [i] + head;
    assert p[1..] == head;
    forall q | Hits(exec, q, c) && q[0] >= i && q != p
      ensures Precedes(p, q)
    {
      if q[0] == i {
        assert q == [i] + q[1..] && Hits(exec.msgs[i].exec, q[1..], c);
        assert Precedes(p[1..], q[1..]);
      }
    }
  }

  lemma NoneInside(exec: ExecMsg, i: nat, c: Claim)
    requires exec.grantee != "" && i < |exec.msgs| && !Matches(exec.msgs[i], c)
    requires exec.msgs[i].Exec? && exec.msgs[i].exec.grantee != "" ==> NoneFrom(exec.msgs[i].exec, 0, c)
    ensures forall q :: Hits(exec, q, c) ==> q[0] != i
  {
    forall q | Hits(exec, q, c)
      ensures q[0] != i
    {
      if exec.msgs[q[0]].Exec? {
        assert Hits(exec.msgs[q[0]].exec, q[1..], c);
      }
    }
  }

  /** The search returns the grantee of the MsgExec directly around the first matching message in
      depth-first order, among those reached through non-empty grantees only, and nothing exactly when
      there is none. */
  lemma WalkFindsFirst(exec: ExecMsg, c: Claim)
    ensures Walk(exec, c).None? <==> NoHit(exec, c)
    ensures Walk(exec, c).Some? ==> exists p :: FirstHit(exec, p, c)
    ensures forall p :: FirstHit(exec, p, c) ==> Walk(exec, c) == Some(WrapperOf(exec, p, c))
  {
    if exec.grantee != "" {
      var first := ScanFindsFirst(exec, 0, c);
      forall p | FirstHit(exec, p, c)
        ensures Walk(exec, c).Some? ==> p == first
      {
        NotBoth(p, first);
      }
      assert Walk(exec, c).Some? ==> FirstHit(exec, first, c) && !NoHit(exec, c);
    }
  }

  /** From the message on: nothing unless it is there and is itself a MsgExec that decodes, and then the
      grantee around the first match in it. */
  lemma ChainFindsFirst(top: Option<Msg>, c: Claim)
    ensures ExecChainGrantee(top, c).None? <==> !(top.Some? && top.value.Exec?) || NoHit(top.value.exec, c)
    ensures top.Some? && top.value.Exec? ==>
              forall p :: FirstHit(top.value.exec, p, c) ==>
                ExecChainGrantee(top, c) == Some(WrapperOf(top.value.exec, p, c))
    ensures ExecChainGrantee(top, c).Some? ==> exists p :: FirstHit(top.value.exec, p, c)
  {
    if top.Some? && top.value.Exec? {
      WalkFindsFirst(top.value.exec, c);
    }
    hide Walk, Hits, NoHit, FirstHit;
  }

  // -------------------------------------------------------------------------
  // Branches that cannot be decoded
  // -------------------------------------------------------------------------

  // Decoding is only attempted where the claim id has to be compared.
  predicate CannotDecode(m: Msg, c: Claim) {
    m.UndecodableExec? || (m.Plain? && m.typeUrl == c.typeUrl && m.body.Undecodable? && c.claimId != "")
  }

  // The tree without its undecodable branches.
  function Pruned(exec: ExecMsg, c: Claim): ExecMsg
    decreases exec, |exec.msgs| + 1
  {
    ExecMsg(exec.grantee, PrunedFrom(exec, 0, c))
  }

  function PrunedFrom(exec: ExecMsg, i: nat, c: Claim): seq<Msg>
    requires i <= |exec.msgs|
    decreases exec, |exec.msgs| - i
  {
    if i == |exec.msgs| then []
    else
      var m := exec.msgs[i];
      if CannotDecode(m, c) then PrunedFrom(exec, i + 1, c)
      else [if m.Exec? then Exec(Pruned(m.exec, c)) else m] + PrunedFrom(exec, i + 1, c)
  }

  /** Undecodable branches anywhere in the tree do not change the result. */
  lemma {:induction false} PruningIsInvisible(exec: ExecMsg, c: Claim)
    ensures Walk(Pruned(exec, c), c) == Walk(exec, c)
    decreases exec, |exec.msgs| + 1
  {
    if exec.grantee != "" {
      PruningFrom(exec, 0, Pruned(exec, c), 0, c);
    }
  }

  lemma {:induction false} PruningFrom(exec: ExecMsg, i: nat, pruned: ExecMsg, j: nat, c: Claim)
    requires exec.grantee != "" && i <= |exec.msgs| && pruned.grantee == exec.grantee
    requires j <= |pruned.msgs| && pruned.msgs[j..] == PrunedFrom(exec, i, c)
    ensures Scan(pruned, j, c) == Scan(exec, i, c)
    decreases exec, |exec.msgs| - i
  {
    if i < |exec.msgs| {
      if CannotDecode(exec.msgs[i], c) {
        PruningFrom(exec, i + 1, pruned, j, c);
      } else {
        assert pruned.msgs[j] == pruned.msgs[j..][0] && pruned.msgs[j + 1..] == pruned.msgs[j..][1..];
        PruningFrom(exec, i + 1, pruned, j + 1, c);
        if exec.msgs[i].Exec? {
          PruningIsInvisible(exec.msgs[i].exec, c);
        }
      }
    }
  }
}
