/** The voting tables as the contract keeps them, updated in place (voting.cpp). Each method leaves
    them as its specification function says, or fails with the same check. */
module VotingTables {
  import opened Basics
  import opened Voting
  import opened ProxyGraph
  import opened VoteLedger
  import opened ProxyLedger
  import opened VotingRules

  /** Whom the propagation has come from does not matter as long as they all rank higher. */
  lemma {:induction false} SeenIrrelevant(b: Book, x: Name, seen: set<Name>, k: Clock, rank: Ranks)
    requires x in b.voters && Ranked(b.voters, rank)
    requires forall y :: y in seen ==> At(rank, y) > At(rank, x)
    ensures Propagate(b, x, seen, k) == Propagate(b, x, {}, k)
    decreases At(rank, x)
  {
    hide CastAll, Propagate, OnlyWeights;
    var row := b.voters[x];
    PropagateUnfolds(b, x, seen, k);
    PropagateUnfolds(b, x, {}, k);
    if row.proxy != NO_NAME {
      var b1 := AddProxied(b, row.proxy, Shift(row, k.growth));
      AddProxiedFrame(b, row.proxy, Shift(row, k.growth), rank);
      SeenIrrelevant(b1, row.proxy, seen + {x}, k, rank);
      SeenIrrelevant(b1, row.proxy, {x}, k, rank);
      assert {} + {x} == {x};
    }
  }

  lemma {:induction false} FirstFailureDecides(b: Book, voter: Name, ballots: seq<Ballot>, voting: bool, i: nat)
    requires i <= |ballots| && CheckBallots(b, voter, ballots[..i], voting).Unmet?
    ensures CheckBallots(b, voter, ballots, voting) == CheckBallots(b, voter, ballots[..i], voting)
  {
    if i == |ballots| {
      assert ballots[..i] == ballots;
    } else {
      assert ballots[..|ballots| - 1][..i] == ballots[..i];
      FirstFailureDecides(b, voter, ballots[..|ballots| - 1], voting, i);
    }
  }

  lemma AddNoBallots(d: Deltas, ps: seq<Name>, w: real, isNew: bool)
    ensures AddBallots(d, ps[..0], w, isNew) == d
  {
  }

  lemma AddOneBallot(d: Deltas, ps: seq<Name>, i: nat, w: real, isNew: bool)
    requires i < |ps|
    ensures var d' := AddBallots(d, ps[..i], w, isNew);
      AddBallots(d, ps[..i + 1], w, isNew)
        == d'[ps[i] := Ballot(ps[i], (if ps[i] in d' then d'[ps[i]].delta else 0.0) + w, isNew)]
  {
    assert ps[..i + 1][..i] == ps[..i];
  }

  lemma RanksOf(voters: map<Name, Voter>) returns (rank: Ranks)
    requires Acyclic(voters)
    ensures Ranked(voters, rank)
  {
    rank :| Ranked(voters, rank);
  }

  lemma ProxyExists(b: Book, v: Name, rank: Ranks)
    requires Ranked(b.voters, rank) && v in b.voters && b.voters[v].proxy != NO_NAME
    ensures b.voters[v].proxy in b.voters && At(rank, b.voters[v].proxy) < At(rank, v)
  {
  }

  function AsOutcome(r: Required): Outcome {
    if r.Met? then Pass else Fail(r.error)
  }

  class VotingTables {
    var voters: map<Name, Voter>
    var producers: map<Name, Producer>
    var producers2: map<Name, Share>
    var totalVotes: real
    var totalShare: real
    var shareRate: real
    var shareUpdated: int
    var activatedStake: int
    var activatedAt: int

    function View(): Book
      reads this
    {
      Book(voters, producers, producers2, totalVotes, totalShare, shareRate, shareUpdated, activatedStake, activatedAt)
    }

    constructor ()
      ensures View() == Book(map[], map[], map[], 0.0, 0.0, 0.0, 0, 0, 0)
    {
      voters, producers, producers2 := map[], map[], map[];
      totalVotes, totalShare, shareRate := 0.0, 0.0, 0.0;
      shareUpdated, activatedStake, activatedAt := 0, 0, 0;
    }

    /** Puts back what an aborted transaction has written. */
    method Restore(b: Book)
      modifies this
      ensures View() == b
    {
      voters, producers, producers2 := b.voters, b.producers, b.shares;
      totalVotes, totalShare, shareRate := b.totalVotes, b.totalShare, b.shareRate;
      shareUpdated, activatedStake, activatedAt := b.shareUpdated, b.activatedStake, b.activatedAt;
    }

    // ---------- vote-pay shares ----------

    method UpdateTotalVotepayShare(now: int, extra: real, rateDelta: real) returns (total: real)
      modifies `totalShare, `shareRate, `shareUpdated
      ensures View() == UpdateTotalShare(old(View()), now, extra, rateDelta) && total == totalShare
    {
      var delta := 0.0;
      if now > shareUpdated {
        delta := shareRate * Secs(now - shareUpdated);
      }
      delta := delta + extra;
      if delta < 0.0 && totalShare < -delta {
        totalShare := 0.0;
      } else {
        totalShare := totalShare + delta;
      }
      if rateDelta < 0.0 && shareRate < -rateDelta {
        shareRate := 0.0;
      } else {
        shareRate := shareRate + rateDelta;
      }
      shareUpdated := now;
      total := totalShare;
    }

    method UpdateProducerVotepayShare(p: Name, now: int, rate: real, reset: bool) returns (share: real)
      requires p in producers2
      modifies `producers2
      ensures share == AdvancedShare(old(producers2[p]), now, rate)
      ensures producers2 == old(producers2)[p := Share(if reset then 0.0 else share, now)]
    {
      var delta := 0.0;
      if rate > 0.0 && now > producers2[p].updated {
        delta := rate * Secs(now - producers2[p].updated);
      }
      share := producers2[p].amount + delta;
      producers2 := producers2[p := Share(if reset then 0.0 else share, now)];
    }

    /** The body of both loops over producers, with the two accumulators it adds to. */
    method MoveVotes(v: Ballot, clamp: bool, now: int, rate: real, inactive: real) returns (rate': real, inactive': real)
      requires v.producer in producers
      modifies `producers, `producers2, `totalVotes
      ensures Tally(View(), rate', inactive') == Count(Tally(old(View()), rate, inactive), v, clamp, now)
    {
      rate', inactive' := rate, inactive;
      var p := v.producer;
      var initial := producers[p].votes;
      producers := producers[p := producers[p].(votes := initial + v.delta)];
      if clamp && producers[p].votes < 0.0 {
        producers := producers[p := producers[p].(votes := 0.0)];
      }
      totalVotes := totalVotes + v.delta;
      if p in producers2 {
        var expiry := producers[p].lastClaim + THREE_DAYS;
        var crossed := expiry <= now;
        var late := expiry <= producers2[p].updated;
        var share := UpdateProducerVotepayShare(p, now, if late then 0.0 else initial, crossed && !late);
        if !crossed {
          rate' := rate + v.delta;
        } else if !late {
          inactive' := inactive + share;
          rate' := rate - initial;
        }
      }
    }

    // ---------- proxies ----------

    /** `propagate_weight_change`: the recursion ends because every proxy ranks below its voters. */
    method PropagateWeightChange(x: Name, k: Clock, ghost rank: Ranks) returns (st: Outcome)
      requires x in voters && Ranked(voters, rank)
      modifies this
      ensures Agrees(st, View(), Propagate(old(View()), x, {}, k))
      decreases At(rank, x)
    {
      hide CastAll, Propagate, OnlyWeights, BallotsKnown, Ranked;
      ghost var b := View();
      var row := voters[x];
      var w := StakeToVote(row.staked, k.growth);
      var c := w - row.lastWeight;
      if row.proxy != NO_NAME {
        ProxyExists(b, x, rank);
      }
      PropagateUnfolds(b, x, {}, k);
      if Magnitude(c) > 1.0 {
        if row.proxy != NO_NAME {
          voters := voters[row.proxy := voters[row.proxy].(proxied := voters[row.proxy].proxied + c)];
          AddProxiedFrame(b, row.proxy, c, rank);
          SeenIrrelevant(View(), row.proxy, {x}, k, rank);
          ghost var b' := PropagateFrame(View(), row.proxy, {}, k, rank);
          assert {} + {x} == {x};
          :- PropagateWeightChange(row.proxy, k, rank);
        } else {
          :- ReweighProducers(row.producers, c, k.now);
        }
      }
      voters := voters[x := voters[x].(lastWeight := w)];
      return Pass;
    }

    /** The loop over the voter's own producers. */
    method ReweighProducers(ps: seq<Name>, delta: real, now: int) returns (st: Outcome)
      modifies this
      ensures Agrees(st, View(), if Registered(ps, old(View()))
        then Success(CastAll(old(View()), SameDelta(ps, delta), false, now)) else Failure(ProducerNotFound))
    {
      hide Count, UpdateTotalShare;
      ghost var b := View();
      ghost var ballots := SameDelta(ps, delta);
      var rate, inactive := 0.0, 0.0;
      for i := 0 to |ps|
        invariant Registered(ps[..i], b) && AllKnown(ballots[..i], b)
        invariant Tally(View(), rate, inactive) == CountAll(Tally(b, 0.0, 0.0), ballots[..i], false, now)
      {
        :- Check(ps[i] in producers, ProducerNotFound);
        assert ballots[..i + 1][..i] == ballots[..i];
        rate, inactive := MoveVotes(Ballot(ps[i], delta, false), false, now, rate, inactive);
      }
      assert ballots[..|ps|] == ballots && ps[..|ps|] == ps;
      var _ := UpdateTotalVotepayShare(now, -inactive, rate);
      return Pass;
    }

    /** `regproxy`, once its authority is known. */
    method RegisterAsProxy(who: Name, on: bool, k: Clock) returns (st: Outcome)
      requires WellFormed(View())
      modifies this
      ensures Agrees(st, View(), RegProxy(old(View()), who, on, k))
    {
      hide Propagate, DistinctBallots;
      if who in voters {
        :- Check(on != voters[who].isProxy, NoEffect);
        :- Check(!on || voters[who].proxy == NO_NAME, AlreadyUsingProxy);
        KeepProxy(voters, who, voters[who].(isProxy := on));
        voters := voters[who := voters[who].(isProxy := on)];
        ghost var rank := RanksOf(voters);
        st := PropagateWeightChange(who, k, rank);
      } else {
        voters := voters[who := NEW_VOTER.(isProxy := on)];
        st := Pass;
      }
    }

    // ---------- voting ----------

    method CheckVote(voter: Name, proxy: Name, candidates: seq<Name>) returns (st: Outcome)
      ensures st == AsOutcome(CheckChoice(View(), voter, proxy, candidates))
    {
      if proxy != NO_NAME {
        :- Check(|candidates| == 0, ProducersAndProxy);
        :- Check(voter != proxy, ProxyToSelf);
      } else {
        :- Check(|candidates| <= MAX_BALLOT, TooManyProducers);
        var i := 1;
        while i < |candidates|
          invariant i >= 1 && forall j :: 1 <= j < i && j < |candidates| ==> candidates[j - 1] < candidates[j]
        {
          :- Check(candidates[i - 1] < candidates[i], UnsortedProducers);
          i := i + 1;
        }
      }
      :- Check(voter in voters, NoVoter);
      :- Check(proxy == NO_NAME || !voters[voter].isProxy, ProxyUsingProxy);
      return Pass;
    }

    method AddToDeltas(d: Deltas, ps: seq<Name>, w: real, isNew: bool) returns (d': Deltas)
      ensures d' == AddBallots(d, ps, w, isNew)
    {
      hide AddBallots;
      d' := d;
      AddNoBallots(d, ps, w, isNew);
      for i := 0 to |ps|
        invariant d' == AddBallots(d, ps[..i], w, isNew)
      {
        AddOneBallot(d, ps, i, w, isNew);
        d' := d'[ps[i] := Ballot(ps[i], (if ps[i] in d' then d'[ps[i]].delta else 0.0) + w, isNew)];
      }
      assert ps[..|ps|] == ps;
    }

    /** Taking the last weight back from the proxy it was lent to. */
    method LeaveOldProxy(voter: Name, k: Clock) returns (st: Outcome)
      requires voter in voters && Acyclic(voters)
      modifies this
      ensures Agrees(st, View(), LeaveProxy(old(View()), old(voters[voter]), k))
    {
      hide Propagate, Ranked, Acyclic, OnlyWeights, BallotsKnown;
      var row := voters[voter];
      if row.lastWeight > 0.0 && row.proxy != NO_NAME {
        :- Check(row.proxy in voters, OldProxyMissing);
        ghost var rank := RanksOf(voters);
        AddProxiedFrame(View(), row.proxy, -row.lastWeight, rank);
        voters := voters[row.proxy := voters[row.proxy].(proxied := voters[row.proxy].proxied - row.lastWeight)];
        st := PropagateWeightChange(row.proxy, k, rank);
      } else {
        st := Pass;
      }
    }

    /** Lending the new weight to the proxy chosen. */
    method JoinNewProxy(proxy: Name, w: real, voting: bool, k: Clock) returns (st: Outcome)
      requires Acyclic(voters)
      modifies this
      ensures Agrees(st, View(), JoinProxy(old(View()), proxy, w, voting, k))
    {
      hide Propagate, Ranked, Acyclic, OnlyWeights, BallotsKnown;
      if proxy == NO_NAME {
        return Pass;
      }
      :- Check(proxy in voters, NotAProxy);
      :- Check(!voting || voters[proxy].isProxy, ProxyNotFound);
      if w >= 0.0 {
        ghost var rank := RanksOf(voters);
        AddProxiedFrame(View(), proxy, w, rank);
        voters := voters[proxy := voters[proxy].(proxied := voters[proxy].proxied + w)];
        st := PropagateWeightChange(proxy, k, rank);
      } else {
        st := Pass;
      }
    }

    /** The loop over `producer_deltas`: each check is made just before its votes move. */
    method CastBallots(voter: Name, ballots: seq<Ballot>, voting: bool, now: int) returns (st: Outcome)
      modifies this
      ensures var checked := CheckBallots(old(View()), voter, ballots, voting);
        Agrees(st, View(), if checked.Met? then Success(CastAll(old(View()), ballots, true, now)) else Failure(checked.error))
    {
      hide Count, UpdateTotalShare;
      ghost var b := View();
      var rate, inactive := 0.0, 0.0;
      for i := 0 to |ballots|
        invariant CheckBallots(b, voter, ballots[..i], voting).Met?
        invariant Tally(View(), rate, inactive) == CountAll(Tally(b, 0.0, 0.0), ballots[..i], true, now)
      {
        var v := ballots[i];
        assert ballots[..i + 1][..i] == ballots[..i];
        CountAllFrame(Tally(b, 0.0, 0.0), ballots[..i], true, now);
        if v.producer != voter || v.producer !in producers {
          FirstFailureDecides(b, voter, ballots, voting, i + 1);
          return Fail(NotOwnProducer);
        }
        if voting && !producers[v.producer].active && v.isNew {
          FirstFailureDecides(b, voter, ballots, voting, i + 1);
          return Fail(ProducerInactive);
        }
        rate, inactive := MoveVotes(v, true, now, rate, inactive);
      }
      assert ballots[..|ballots|] == ballots;
      var _ := UpdateTotalVotepayShare(now, -inactive, rate);
      return Pass;
    }

    /** The first vote of an account counts its stake as activated. */
    method CountStake(voter: Name, now: int)
      requires voter in voters
      modifies `activatedStake, `activatedAt
      ensures View() == Activate(old(View()), voter, now)
    {
      if activatedAt == 0 && voters[voter].lastWeight <= 0.0 {
        activatedStake := activatedStake + voters[voter].staked;
        if activatedStake >= MIN_ACTIVATED_STAKE {
          activatedAt := now;
        }
      }
    }

    /** `producer_deltas`: what the vote takes from each producer and gives to each. */
    method CollectDeltas(row: Voter, proxy: Name, candidates: seq<Name>, w: real) returns (d: Deltas)
      ensures d == BallotDeltas(row, proxy, candidates, w)
    {
      hide AddBallots;
      d := map[];
      if row.lastWeight > 0.0 && row.proxy == NO_NAME {
        d := AddToDeltas(d, row.producers, -row.lastWeight, false);
      }
      if proxy == NO_NAME && w >= 0.0 {
        d := AddToDeltas(d, candidates, w, true);
      }
    }

    /** `update_votes` */
    method CastVote(voter: Name, proxy: Name, candidates: seq<Name>, voting: bool, k: Clock) returns (st: Outcome)
      requires WellFormed(View()) && (voter in voters ==> Repeats(voters[voter], proxy, candidates, voting))
      modifies this
      ensures Agrees(st, View(), UpdateVotes(old(View()), voter, proxy, candidates, voting, k))
    {
      hide LeaveProxy, JoinProxy, CastAll, CheckBallots, CheckChoice, InOrder, OnlyWeights, BallotsKnown, UpdateVotes, Acyclic,
           Record, WellFormed, BallotDeltas, Activate;
      ghost var b := View();
      VoteUnfolds(b, voter, proxy, candidates, voting, k);
      :- CheckVote(voter, proxy, candidates);
      var row := voters[voter];
      ActivateKeepsShape(b, voter, k.now);
      CountStake(voter, k.now);
      var w := StakeToVote(row.staked, k.growth);
      if row.isProxy {
        w := w + row.proxied;
      }
      GraphAfterLeaving(View(), voter, k);
      :- LeaveOldProxy(voter, k);
      :- JoinNewProxy(proxy, w, voting, k);
      var deltas := CollectDeltas(row, proxy, candidates, w);
      :- CastBallots(voter, InOrder(deltas), voting, k.now);
      RecordIs(View(), voter, proxy, candidates, w);
      voters := voters[voter := voters[voter].(lastWeight := w, producers := candidates, proxy := proxy)];
      return Pass;
    }

    // ---------- producers ----------

    /** `register_producer`, as far as the producer tables go. */
    method RegisterProducer(producer: Name, now: nat)
      modifies this
      ensures View() == Register(old(View()), producer, now)
    {
      if producer in producers {
        var row := producers[producer];
        producers := producers[producer := row.(active := true, lastClaim := if row.lastClaim == 0 then now else row.lastClaim)];
        if producer !in producers2 {
          producers2 := producers2[producer := Share(0.0, now)];
          var _ := UpdateTotalVotepayShare(now, 0.0, producers[producer].votes);
        }
      } else {
        producers := producers[producer := Producer(0.0, true, false, 0, now)];
        producers2 := producers2[producer := Share(0.0, now)];
      }
    }
  }

  /** `update_votes` from check to check. */
  lemma VoteUnfolds(b: Book, voter: Name, proxy: Name, candidates: seq<Name>, voting: bool, k: Clock)
    ensures var checked := CheckChoice(b, voter, proxy, candidates);
      var vote := UpdateVotes(b, voter, proxy, candidates, voting, k);
      if checked.Unmet? then vote == Failure(checked.error)
      else
        && voter in b.voters
        && var row := b.voters[voter];
        var w := NewWeight(row, k.growth);
        var left := LeaveProxy(Activate(b, voter, k.now), row, k);
        if left.Failure? then vote == Failure(left.error)
        else
          var joined := JoinProxy(left.value, proxy, w, voting, k);
          if joined.Failure? then vote == Failure(joined.error)
          else
            var ballots := InOrder(BallotDeltas(row, proxy, candidates, w));
            var cast := CheckBallots(joined.value, voter, ballots, voting);
            if cast.Unmet? then vote == Failure(cast.error)
            else
              && AllKnown(ballots, joined.value) && voter in joined.value.voters
              && vote == Success(Record(CastAll(joined.value, ballots, true, k.now), voter, proxy, candidates, w))
  {
    hide LeaveProxy, JoinProxy, CastAll, InOrder, BallotDeltas, Record;
  }

  lemma RecordIs(b: Book, voter: Name, proxy: Name, candidates: seq<Name>, w: real)
    requires voter in b.voters
    ensures Record(b, voter, proxy, candidates, w)
      == WithRow(b, voter, b.voters[voter].(lastWeight := w, producers := candidates, proxy := proxy))
  {
  }

  lemma GraphAfterLeaving(b: Book, voter: Name, k: Clock)
    requires WellFormed(b) && voter in b.voters
    ensures Acyclic(b.voters)
    ensures LeaveProxy(b, b.voters[voter], k).Success? ==> Acyclic(LeaveProxy(b, b.voters[voter], k).value.voters)
  {
    hide LeaveProxy, OnlyWeights, Acyclic;
    ShapeParts(b);
    var left := LeaveProxyFrame(b, voter, k);
    WeightsKeepGraph(b, left);
  }

  lemma WeightsKeepGraph(b: Book, b': Book)
    requires OnlyWeights(b, b') && Acyclic(b.voters)
    ensures Acyclic(b'.voters)
  {
    assert forall v :: v in b.voters ==> SameButWeights(b.voters[v], b'.voters[v]);
    SameProxies(b.voters, b'.voters);
  }
}
