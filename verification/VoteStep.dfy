/** One vote keeps the invariant of the voting tables, when neither proxy it touches skips a change. */
module VoteStep {
  import opened Basics
  import opened Names
  import opened Sums
  import opened Voting
  import opened ProxyGraph
  import opened VoteLedger
  import opened ProxyLedger
  import opened VotingRules
  import opened VotingInvariant

  // ---------- what the ballots of one vote add up to ----------

  function DeltaAt(d: Deltas, p: Name): real {
    if p in d then d[p].delta else 0.0
  }

  ghost predicate Labelled(d: Deltas) {
    forall p :: p in d ==> d[p].producer == p
  }

  lemma {:induction false} AddBallotsAt(d: Deltas, ps: seq<Name>, w: real, isNew: bool, p: Name)
    requires Labelled(d) && Distinct(ps)
    ensures Labelled(AddBallots(d, ps, w, isNew))
    ensures DeltaAt(AddBallots(d, ps, w, isNew), p) == DeltaAt(d, p) + When(p in ps, w)
  {
    if ps != [] {
      var n := |ps| - 1;
      AddBallotsAt(d, ps[..n], w, isNew, p);
      assert ps == ps[..n] + [ps[n]];
      assert p in ps <==> p in ps[..n] || p == ps[n];
    }
  }

  lemma InOrderMeans(d: Deltas, p: Name)
    requires Labelled(d)
    ensures OneEach(InOrder(d)) && DeltaFor(InOrder(d), p) == DeltaAt(d, p)
    ensures forall i :: 0 <= i < |InOrder(d)| ==> InOrder(d)[i].delta == DeltaAt(d, InOrder(d)[i].producer)
    ensures p in d ==> exists i :: 0 <= i < |InOrder(d)| && InOrder(d)[i].producer == p
  {
    var ks := Sorted(d.Keys);
    var ballots := InOrder(d);
    assert forall i :: 0 <= i < |ks| ==> ks[i] in d.Keys && ballots[i] == d[ks[i]] && ballots[i].producer == ks[i];
    if p in d {
      var i: nat :| i < |ks| && ks[i] == p;
      DeltaForListed(ballots, i);
    } else {
      DeltaForAbsent(ballots, p);
    }
  }

  /** The ballots move each producer by exactly the change in what the voter's row contributes. */
  lemma BallotsMean(row: Voter, proxy: Name, producers: seq<Name>, w: real, p: Name)
    requires Distinct(row.producers) && Distinct(producers) && row.lastWeight >= 0.0 && w >= 0.0
    requires proxy != NO_NAME ==> producers == []
    ensures var d := BallotDeltas(row, proxy, producers, w);
      && Labelled(d)
      && DeltaAt(d, p) == VoteOf(row.(proxy := proxy, producers := producers, lastWeight := w), p) - VoteOf(row, p)
  {
    hide AddBallots;
    AddBallotsAt(map[], row.producers, -row.lastWeight, false, p);
    var undone := if row.lastWeight > 0.0 && row.proxy == NO_NAME
                  then AddBallots(map[], row.producers, -row.lastWeight, false) else map[];
    assert Labelled(undone) && DeltaAt(undone, p) == -VoteOf(row, p);
    AddBallotsAt(undone, producers, w, true, p);
    assert p in producers ==> producers != [];
  }

  lemma AddBallotsLabelled(row: Voter, proxy: Name, producers: seq<Name>, w: real)
    requires Distinct(row.producers) && Distinct(producers)
    ensures Labelled(BallotDeltas(row, proxy, producers, w))
  {
    hide AddBallots;
    AddBallotsAt(map[], row.producers, -row.lastWeight, false, 0);
    var undone := if row.lastWeight > 0.0 && row.proxy == NO_NAME
                  then AddBallots(map[], row.producers, -row.lastWeight, false) else map[];
    AddBallotsAt(undone, producers, w, true, 0);
  }

  // ---------- the step ----------

  /** Neither of the two propagations a vote starts skips a change. */
  ghost predicate VoteSkipsNothing(b: Book, voter: Name, proxy: Name, k: Clock)
    requires voter in b.voters
  {
    var row := b.voters[voter];
    var w := NewWeight(row, k.growth);
    var a := Activate(b, voter, k.now);
    && (row.lastWeight > 0.0 && row.proxy != NO_NAME && row.proxy in a.voters ==>
         NothingSkipped(AddProxied(a, row.proxy, -row.lastWeight), row.proxy, {}, k))
    && (LeaveProxy(a, row, k).Success? ==>
         var left := LeaveProxy(a, row, k).value;
         proxy != NO_NAME && proxy in left.voters && w >= 0.0 ==>
           NothingSkipped(AddProxied(left, proxy, w), proxy, {}, k))
  }

  /** Lending `delta` to `x` moves the ledger of `x` alone. */
  lemma LendCore(b: Book, x: Name, delta: real, k: Clock) returns (b': Book)
    requires Core(b) && x in b.voters && NothingSkipped(AddProxied(b, x, delta), x, {}, k)
    ensures Propagate(AddProxied(b, x, delta), x, {}, k) == Success(b')
    ensures Core(b') && b'.voters.Keys == b.voters.Keys
    ensures forall z :: z in b.voters ==> ProxyGap(b', z) == ProxyGap(b, z) + When(z == x, delta)
  {
    hide Propagate, NothingSkipped, Weighty, VotesExact, BallotsKnown, OnlyWeights, ProxyGap, AddProxied;
    AddProxiedCore(b, x, delta);
    var b1 := AddProxied(b, x, delta);
    var rank: Ranks :| Ranked(b1.voters, rank);
    hide Ranked, WellFormed;
    b' := PropagateCore(b1, x, k, rank);
    SameKeys(b1, b');
  }

  lemma LeaveCore(b: Book, voter: Name, k: Clock) returns (left: Book)
    requires Core(b) && voter in b.voters
    requires var row := b.voters[voter];
      row.lastWeight > 0.0 && row.proxy != NO_NAME && row.proxy in b.voters ==>
        NothingSkipped(AddProxied(b, row.proxy, -row.lastWeight), row.proxy, {}, k)
    ensures LeaveProxy(b, b.voters[voter], k) == Success(left)
    ensures Core(left) && left.voters.Keys == b.voters.Keys
    ensures forall z :: z in b.voters ==> ProxyGap(left, z) == ProxyGap(b, z) - LentTo(b.voters[voter], z)
  {
    hide Propagate, NothingSkipped, VotesExact, BallotsKnown, ProxyGap, AddProxied;
    var row := b.voters[voter];
    left := b;
    if row.lastWeight > 0.0 && row.proxy != NO_NAME {
      assert row.proxy in b.voters;
      left := LendCore(b, row.proxy, -row.lastWeight, k);
    }
  }

  lemma JoinCore(b: Book, proxy: Name, w: real, voting: bool, k: Clock) returns (joined: Book)
    requires Core(b) && JoinProxy(b, proxy, w, voting, k).Success? && w >= 0.0
    requires proxy != NO_NAME && proxy in b.voters ==> NothingSkipped(AddProxied(b, proxy, w), proxy, {}, k)
    ensures JoinProxy(b, proxy, w, voting, k) == Success(joined)
    ensures Core(joined) && joined.voters.Keys == b.voters.Keys
    ensures forall z :: z in b.voters ==>
      ProxyGap(joined, z) == ProxyGap(b, z) + When(proxy != NO_NAME && z == proxy, w)
  {
    hide Propagate, NothingSkipped, VotesExact, BallotsKnown, ProxyGap, AddProxied, Core;
    joined := b;
    if proxy != NO_NAME {
      joined := LendCore(b, proxy, w, k);
    }
  }

  /** The ballots of a vote never drive a producer negative, so the clamp stays idle. */
  lemma VoteIdle(b: Book, voter: Name, proxy: Name, producers: seq<Name>, w: real)
    requires Weighty(b) && VotesExact(b) && voter in b.voters
    requires Distinct(b.voters[voter].producers) && Distinct(producers) && w >= 0.0
    requires proxy != NO_NAME ==> producers == []
    requires AllKnown(InOrder(BallotDeltas(b.voters[voter], proxy, producers, w)), b)
    ensures ClampIdle(b, InOrder(BallotDeltas(b.voters[voter], proxy, producers, w)))
  {
    hide VotesExact;
    var row := b.voters[voter];
    var d := BallotDeltas(row, proxy, producers, w);
    var ballots := InOrder(d);
    TotalsBounded(b);
    BallotsMean(row, proxy, producers, w, 0);
    InOrderMeans(d, 0);
    hide BallotDeltas, InOrder;
    forall i | 0 <= i < |ballots| ensures b.producers[ballots[i].producer].votes + ballots[i].delta >= 0.0 {
      var p := ballots[i].producer;
      BallotsMean(row, proxy, producers, w, p);
      assert VoteOf(row, p) <= b.producers[p].votes;
    }
  }

  /** Casting the ballots and recording the choice cancel out in every gap. */
  lemma CastAndRecord(b: Book, voter: Name, proxy: Name, producers: seq<Name>, w: real, now: int) returns (b': Book)
    requires Core(b) && voter in b.voters && w >= 0.0 && Distinct(producers)
    requires proxy != NO_NAME ==> producers == []
    requires AllKnown(InOrder(BallotDeltas(b.voters[voter], proxy, producers, w)), b)
    ensures b' == Record(CastAll(b, InOrder(BallotDeltas(b.voters[voter], proxy, producers, w)), true, now),
                         voter, proxy, producers, w)
    ensures VotesExact(b') && Weighty(b') && b'.voters.Keys == b.voters.Keys
    ensures forall z :: z in b.voters ==>
      ProxyGap(b', z) == ProxyGap(b, z) - When(proxy != NO_NAME && z == proxy, w) + LentTo(b.voters[voter], z)
  {
    hide VoteGap, ProxyGap, TotalGap, CastAll;
    var row := b.voters[voter];
    var row' := row.(lastWeight := w, producers := producers, proxy := proxy);
    var d := BallotDeltas(row, proxy, producers, w);
    VoteIdle(b, voter, proxy, producers, w);
    CastAllGaps(b, InOrder(d), true, now);
    var cast := CastAll(b, InOrder(d), true, now);
    b' := Record(cast, voter, proxy, producers, w);
    forall p | p in b.producers ensures DeltaFor(InOrder(d), p) == VoteOf(row', p) - VoteOf(row, p) {
      BallotsMean(row, proxy, producers, w, p);
      InOrderMeans(d, p);
    }
    hide DeltaFor, InOrder, BallotDeltas;
    WriteRowGaps(cast, voter, row');
    assert b' == WithRow(cast, voter, row');
  }

  lemma NewWeightNonNegative(b: Book, voter: Name, growth: Growth)
    requires Weighty(b) && ProxiesExact(b) && voter in b.voters
    ensures NewWeight(b.voters[voter], growth) >= 0.0
  {
    ProxiedNonNegative(b, voter);
    WeightNonNegative(b.voters[voter].staked, growth);
  }

  lemma ActivateCore(b: Book, voter: Name, now: int)
    requires Core(b) && voter in b.voters
    ensures Core(Activate(b, voter, now)) && Activate(b, voter, now).voters == b.voters
    ensures forall z :: z in b.voters ==> ProxyGap(Activate(b, voter, now), z) == ProxyGap(b, z)
  {
    hide Total;
    var a := Activate(b, voter, now);
    assert forall v :: v in b.voters ==> Registered(b.voters[v].producers, a) == Registered(b.voters[v].producers, b);
    forall p | p in a.producers ensures VoteGap(a, p) == 0.0 {
      assert VoteGap(b, p) == 0.0;
    }
  }

  /** New names on a ballot were checked against the producers table, as long as the weight counts. */
  lemma ChoiceKnown(b: Book, voter: Name, proxy: Name, producers: seq<Name>, voting: bool, w: real)
    requires w >= 0.0 && voter in b.voters && Distinct(producers) && Distinct(b.voters[voter].producers)
    requires proxy != NO_NAME ==> producers == []
    requires CheckBallots(b, voter, InOrder(BallotDeltas(b.voters[voter], proxy, producers, w)), voting).Met?
    ensures Registered(producers, b)
  {
    var d := BallotDeltas(b.voters[voter], proxy, producers, w);
    AddBallotsLabelled(b.voters[voter], proxy, producers, w);
    forall p | p in producers ensures p in b.producers {
      InOrderMeans(d, p);
      assert p in d;
      var i :| 0 <= i < |InOrder(d)| && InOrder(d)[i].producer == p;
    }
  }

  /** The voter's own row reaches the end of both propagations untouched. */
  lemma VoterRowStays(b: Book, voter: Name, proxy: Name, producers: seq<Name>, voting: bool, k: Clock,
                      left: Book, joined: Book)
    requires WellFormed(b) && voter in b.voters && Repeats(b.voters[voter], proxy, producers, voting)
    requires proxy != NO_NAME ==> proxy != voter
    requires LeaveProxy(Activate(b, voter, k.now), b.voters[voter], k) == Success(left)
    requires JoinProxy(left, proxy, NewWeight(b.voters[voter], k.growth), voting, k) == Success(joined)
    ensures voter in joined.voters && joined.voters[voter] == b.voters[voter]
    ensures joined.producers.Keys == b.producers.Keys
  {
    hide LeaveProxy, JoinProxy, WellFormed, NewWeight;
    var a := Activate(b, voter, k.now);
    ActivateKeepsShape(b, voter, k.now);
    ShapeParts(a);
    var left' := LeaveProxyFrame(a, voter, k);
    WeightsKeepShape(a, left);
    ShapeParts(left);
    var joined' := JoinProxyFrame(left, voter, proxy, producers, NewWeight(b.voters[voter], k.growth), voting, k);
    SameKeys(a, left);
    SameKeys(left, joined);
  }

  lemma ChoiceKeepsKnown(b: Book, voter: Name, proxy: Name, producers: seq<Name>, now: int, b': Book)
    requires BallotsKnown(b) && voter in b.voters && Registered(producers, b)
    requires OnlyWeights(Chosen(b, voter, proxy, producers, now), b')
    ensures BallotsKnown(b')
  {
    var c := Chosen(b, voter, proxy, producers, now);
    forall v | v in c.voters ensures Registered(c.voters[v].producers, c) {
      assert Registered(b.voters[v].producers, b);
    }
    WeightsKeepShape(c, b');
  }

  lemma ChoicePlain(b: Book, voter: Name, proxy: Name, producers: seq<Name>)
    requires CheckChoice(b, voter, proxy, producers).Met?
    ensures Distinct(producers) && (proxy != NO_NAME ==> producers == [] && proxy != voter)
  {
    if proxy == NO_NAME {
      AscendingIsDistinct(producers);
    }
  }

  /** One vote, from the checks to the row it writes, keeps every ledger of the voting tables. */
  lemma VoteKeepsSound(b: Book, voter: Name, proxy: Name, producers: seq<Name>, voting: bool, k: Clock)
    returns (b': Book)
    requires Sound(b)
    requires UpdateVotes(b, voter, proxy, producers, voting, k).Success?
    requires voter in b.voters && Repeats(b.voters[voter], proxy, producers, voting)
    requires VoteSkipsNothing(b, voter, proxy, k)
    ensures UpdateVotes(b, voter, proxy, producers, voting, k) == Success(b')
    ensures Sound(b')
  {
    hide Core, OnlyWeights, LeaveProxy, JoinProxy, CastAll, InOrder, BallotDeltas, CheckBallots, UpdateVotes, Record, Chosen,
         ProxyGap, NothingSkipped, AddProxied, Activate, WellFormed, NewWeight, Weighty, VotesExact, BallotsKnown;
    CoreParts(b);
    b' := VoteFrame(b, voter, proxy, producers, voting, k);
    var left, joined := VoteStages(b, voter, proxy, producers, voting, k);
    var row := b.voters[voter];
    var w := NewWeight(row, k.growth);
    var a := Activate(b, voter, k.now);
    NewWeightNonNegative(b, voter, k.growth);
    ActivateCore(b, voter, k.now);
    var _ := LeaveCore(a, voter, k);
    var _ := JoinCore(left, proxy, w, voting, k);
    ChoicePlain(b, voter, proxy, producers);
    VoterRowStays(b, voter, proxy, producers, voting, k, left, joined);
    CoreParts(joined);
    var _ := CastAndRecord(joined, voter, proxy, producers, w, k.now);
    ChoiceKnown(joined, voter, proxy, producers, voting, w);
    ChoiceKeepsKnown(b, voter, proxy, producers, k.now, b');
    CoreFrom(b');
  }

  lemma CoreParts(b: Book)
    requires Core(b)
    ensures WellFormed(b) && BallotsKnown(b) && Weighty(b)
    ensures forall v :: v in b.voters ==> Distinct(b.voters[v].producers) && b.voters[v].lastWeight >= 0.0
  {
  }

  lemma CoreFrom(b: Book)
    requires WellFormed(b) && BallotsKnown(b) && Weighty(b) && VotesExact(b)
    ensures Core(b)
  {
  }
}
