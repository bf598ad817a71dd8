/** How long a process lives: the error and empty-fetch counters of src/sync/sync_blocks.ts against what its
    iterations meet. */
module ProcessRuns {
  import opened Transactions
  import opened BlockLoop
  import opened RunTheorems

  // What one iteration meets: a block indexed, an error, no block yet, or the process killed.
  datatype Met = Indexing | Error | Empty | Killed

  function MetBy(cfg: Config, s: System, t: Tick): Met
    requires s.process.Up?
  {
    match t
    case FetchFails => Error
    case NotYet => Empty
    case Ready(_, _, _, _) =>
      match TryBlock(cfg, s.durable, s.process.currentBlock, t).verdict
      case Indexed => Indexing
      case Failed => Error
      case Crashed => Killed
  }

  // The iterations of one life, up to its end if it comes.
  function Mets(cfg: Config, s: System, ticks: seq<Tick>): (mets: seq<Met>)
    ensures |mets| <= |ticks|
  {
    if ticks == [] then []
    else
      var init := ticks[..|ticks| - 1];
      var before := Run(cfg, s, [Start] + Loops(init));
      Mets(cfg, s, init) + if before.process.Up? then [MetBy(cfg, before, ticks[|ticks| - 1])] else []
  }

  // How many empty fetches in a row directly precede iteration i.
  function EmptyBefore(mets: seq<Met>, i: nat): nat
    requires i <= |mets|
  {
    if i == 0 || !mets[i - 1].Empty? then 0 else EmptyBefore(mets, i - 1) + 1
  }

  // Every 26th empty fetch in a row counts as an error.
  predicate IsError(mets: seq<Met>, i: nat)
    requires i < |mets|
  {
    mets[i].Error? || (mets[i].Empty? && (EmptyBefore(mets, i) + 1) % 26 == 0)
  }

  // Errors among the first n iterations since the last indexed block.
  function ErrorsSince(mets: seq<Met>, n: nat): nat
    requires n <= |mets|
  {
    if n == 0 || mets[n - 1].Indexing? then 0
    else ErrorsSince(mets, n - 1) + if IsError(mets, n - 1) then 1 else 0
  }

  function BlocksIndexed(mets: seq<Met>): nat {
    if mets == [] then 0 else BlocksIndexed(mets[..|mets| - 1]) + if mets[|mets| - 1].Indexing? then 1 else 0
  }

  // Iteration i ends the process: it is killed there, or has met its fourth error in a row.
  predicate EndsAt(mets: seq<Met>, i: nat)
    requires i < |mets|
  {
    mets[i].Killed? || ErrorsSince(mets, i + 1) == 4
  }

  predicate LivesOn(mets: seq<Met>) {
    forall i: nat :: i < |mets| ==> !EndsAt(mets, i)
  }

  predicate EndsLast(mets: seq<Met>) {
    && mets != [] && EndsAt(mets, |mets| - 1)
    && forall i: nat :: i < |mets| - 1 ==> !EndsAt(mets, i)
  }

  lemma {:induction false} SamePrefix(mets: seq<Met>, more: seq<Met>, n: nat)
    requires n <= |mets|
    ensures EmptyBefore(mets + more, n) == EmptyBefore(mets, n)
    ensures ErrorsSince(mets + more, n) == ErrorsSince(mets, n)
    ensures n < |mets| ==> (IsError(mets + more, n) <==> IsError(mets, n))
  {
    if n > 0 {
      SamePrefix(mets, more, n - 1);
    }
  }

  lemma OneMet(mets: seq<Met>, met: Met)
    requires LivesOn(mets)
    ensures var after, n := mets + [met], |mets|;
            var counts := met.Error? || (met.Empty? && (EmptyBefore(mets, n) + 1) % 26 == 0);
            && EmptyBefore(after, n + 1) == (if met.Empty? then EmptyBefore(mets, n) + 1 else 0)
            && ErrorsSince(after, n + 1) ==
               (if met.Indexing? then 0 else ErrorsSince(mets, n) + if counts then 1 else 0)
            && BlocksIndexed(after) == BlocksIndexed(mets) + (if met.Indexing? then 1 else 0)
            && (LivesOn(after) <==> !met.Killed? && ErrorsSince(after, n + 1) != 4)
            && (EndsLast(after) <==> met.Killed? || ErrorsSince(after, n + 1) == 4)
  {
    var after, n := mets + [met], |mets|;
    assert after[..n] == mets && after[n] == met;
    SamePrefix(mets, [met], n);
    forall i: nat | i < n
      ensures !EndsAt(after, i)
    {
      SamePrefix(mets, [met], i + 1);
      assert !EndsAt(mets, i);
    }
    assert EndsAt(after, n) <==> met.Killed? || ErrorsSince(after, n + 1) == 4;
    assert LivesOn(after) <==> !EndsAt(after, n);
  }

  // The counters of a living process.
  predicate Counts(p: Process, first: nat, mets: seq<Met>) {
    && p == Up(first + BlocksIndexed(mets), EmptyBefore(mets, |mets|) % 26, ErrorsSince(mets, |mets|))
    && ErrorsSince(mets, |mets|) < 4 && LivesOn(mets)
  }

  lemma IterationCounts(cfg: Config, s: System, t: Tick, first: nat, mets: seq<Met>)
    requires s.process.Up? && Counts(s.process, first, mets)
    ensures var after, now := mets + [MetBy(cfg, s, t)], Iterate(cfg, s, t).process;
            if now.Up? then Counts(now, first, after) else EndsLast(after)
  {
    MetDecides(cfg, s, t);
    hide MetBy, Iterate, TryBlock, EmptyBefore, ErrorsSince, BlocksIndexed, LivesOn, EndsLast;
    OneMet(mets, MetBy(cfg, s, t));
    Next26(EmptyBefore(mets, |mets|));
  }

  // What the iteration meets decides the counters.
  lemma MetDecides(cfg: Config, s: System, t: Tick)
    requires s.process.Up?
    ensures var p, now := s.process, Iterate(cfg, s, t).process;
            var error := if p.errorCount >= 3 then Down else Up(p.currentBlock, 0, p.errorCount + 1);
            now == match MetBy(cfg, s, t)
                   case Indexing => Up(p.currentBlock + 1, 0, 0)
                   case Error => error
                   case Empty => if p.count >= 25 then error else Up(p.currentBlock, p.count + 1, p.errorCount)
                   case Killed => Down
  {
    hide TryBlock;
  }

  lemma Next26(n: nat)
    ensures if n % 26 == 25 then (n + 1) % 26 == 0 else (n + 1) % 26 == n % 26 + 1
  {
  }

  /** A process starts at block 1, or behind the stored height, and goes on by one with every indexed block. It
      ends exactly when it is killed or meets its fourth error since the last indexed block, where every 26th
      empty fetch in a row is an error; no sooner, whatever else it meets. */
  lemma {:induction false} LifeOfProcess(cfg: Config, s: System, ticks: seq<Tick>)
    ensures var now, mets := Run(cfg, s, [Start] + Loops(ticks)).process, Mets(cfg, s, ticks);
            var first := if s.durable.db.height <= 1 then 1 else s.durable.db.height + 1;
            && (now.Up? <==> LivesOn(mets))
            && (now.Down? <==> EndsLast(mets))
            && (now.Up? ==>
                  && |mets| == |ticks|
                  && now.currentBlock == first + BlocksIndexed(mets)
                  && now.errorCount == ErrorsSince(mets, |mets|) < 4
                  && now.count == EmptyBefore(mets, |mets|) % 26)
  {
    LifeSoFar(cfg, s, ticks);
    hide Run, Mets, EmptyBefore, ErrorsSince, BlocksIndexed, EndsAt;
  }

  lemma {:induction false} LifeSoFar(cfg: Config, s: System, ticks: seq<Tick>)
    ensures var now, mets := Run(cfg, s, [Start] + Loops(ticks)).process, Mets(cfg, s, ticks);
            if now.Up? then Counts(now, StartBlock(s.durable.db), mets) && |mets| == |ticks| else EndsLast(mets)
  {
    hide Iterate, Started, MetBy, Counts, EndsLast;
    if ticks == [] {
      assert [Start] + Loops(ticks) == [] + [Start];
      RunNext(cfg, s, [], Start);
      StartCounts(s);
      assert Run(cfg, s, []) == s;
    } else {
      var init, t := ticks[..|ticks| - 1], ticks[|ticks| - 1];
      LifeSoFar(cfg, s, init);
      assert [Start] + Loops(ticks) == ([Start] + Loops(init)) + [Loop(t)];
      RunNext(cfg, s, [Start] + Loops(init), Loop(t));
      var before := Run(cfg, s, [Start] + Loops(init));
      hide Run, Loops;
      if before.process.Up? {
        IterationCounts(cfg, before, t, StartBlock(s.durable.db), Mets(cfg, s, init));
      } else {
        assert Mets(cfg, s, ticks) == Mets(cfg, s, init);
      }
    }
  }

  lemma StartCounts(s: System)
    ensures Started(s).process.Up? && Counts(Started(s).process, StartBlock(s.durable.db), [])
  {
  }
}
