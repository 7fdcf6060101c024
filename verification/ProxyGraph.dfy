/** The proxy graph stays acyclic, so passing a weight change along it ends. */
module ProxyGraph {
  import opened Basics
  import opened Voting

  type Ranks = map<Name, nat>

  function At(rank: Ranks, v: Name): nat {
    if v in rank then rank[v] else 0
  }

  ghost predicate Ranked(voters: map<Name, Voter>, rank: Ranks) {
    forall v {:trigger voters[v].proxy} :: v in voters && voters[v].proxy != NO_NAME ==>
      voters[v].proxy in voters && At(rank, voters[v].proxy) < At(rank, v)
  }

  ghost predicate Acyclic(voters: map<Name, Voter>) {
    exists rank: Ranks :: Ranked(voters, rank)
  }

  /** The proxy reached from `v` in `n` steps, or no name when the chain has ended. */
  function Follow(voters: map<Name, Voter>, v: Name, n: nat): Name {
    if n == 0 then v
    else
      var u := Follow(voters, v, n - 1);
      if u != NO_NAME && u in voters then voters[u].proxy else NO_NAME
  }

  lemma {:induction false} FollowDescends(voters: map<Name, Voter>, rank: Ranks, v: Name, n: nat)
    requires Ranked(voters, rank) && n > 0
    ensures var u := Follow(voters, v, n); u == NO_NAME || (u in voters && At(rank, u) < At(rank, v))
  {
    if n > 1 {
      FollowDescends(voters, rank, v, n - 1);
    }
  }

  /** Acyclic means what it says: no chain of proxies comes back to the voter it started at. */
  lemma NoChainReturns(voters: map<Name, Voter>, v: Name, n: nat)
    requires Acyclic(voters) && v != NO_NAME && n > 0
    ensures Follow(voters, v, n) != v
  {
    var rank: Ranks :| Ranked(voters, rank);
    FollowDescends(voters, rank, v, n);
  }

  /** A voter that leaves its proxy for a root, or for no proxy, closes no cycle. */
  lemma PointAtRoot(voters: map<Name, Voter>, v: Name, row: Voter)
    requires Acyclic(voters)
    requires row.proxy != NO_NAME ==>
      row.proxy != v && row.proxy in voters && voters[row.proxy].proxy == NO_NAME
    ensures Acyclic(voters[v := row])
  {
    var rank: Ranks :| Ranked(voters, rank);
    var root := row.proxy;
    var rank' := map n | n in voters.Keys + {v} :: if n == root then 0 else At(rank, n) + 1;
    assert Ranked(voters[v := row], if root == NO_NAME then rank else rank');
  }

  /** Writing a row without changing its proxy keeps the graph. */
  lemma KeepProxy(voters: map<Name, Voter>, v: Name, row: Voter)
    requires Acyclic(voters)
    requires row.proxy == if v in voters then voters[v].proxy else NO_NAME
    ensures Acyclic(voters[v := row])
  {
    var rank: Ranks :| Ranked(voters, rank);
    assert Ranked(voters[v := row], rank);
  }

  lemma SameProxies(voters: map<Name, Voter>, voters': map<Name, Voter>)
    requires Acyclic(voters) && voters'.Keys == voters.Keys
    requires forall v :: v in voters ==> voters'[v].proxy == voters[v].proxy
    ensures Acyclic(voters')
  {
    var rank: Ranks :| Ranked(voters, rank);
    assert Ranked(voters', rank);
  }

  // ---------- what propagation may touch ----------

  ghost predicate SameButWeights(r: Voter, r': Voter) {
    r' == r.(lastWeight := r'.lastWeight, proxied := r'.proxied)
  }

  ghost predicate SameButVotes(r: Producer, r': Producer) {
    r' == r.(votes := r'.votes)
  }

  /** Everything except vote weights, vote totals and shares is as before. */
  ghost predicate OnlyWeights(b: Book, b': Book) {
    && b'.voters.Keys == b.voters.Keys
    && b'.producers.Keys == b.producers.Keys
    && b'.shares.Keys == b.shares.Keys
    && (forall v :: v in b.voters ==> SameButWeights(b.voters[v], b'.voters[v]))
    && (forall p :: p in b.producers ==> SameButVotes(b.producers[p], b'.producers[p]))
    && b'.activatedStake == b.activatedStake
    && b'.activatedAt == b.activatedAt
  }

  ghost predicate Registered(ps: seq<Name>, b: Book) {
    forall p :: p in ps ==> p in b.producers
  }

  ghost predicate BallotsKnown(b: Book) {
    forall v :: v in b.voters ==> Registered(b.voters[v].producers, b)
  }

  lemma OnlyWeightsReflexive(b: Book)
    ensures OnlyWeights(b, b)
  {
  }

  lemma OnlyWeightsTransitive(b: Book, b': Book, b'': Book)
    requires OnlyWeights(b, b') && OnlyWeights(b', b'')
    ensures OnlyWeights(b, b'')
  {
    forall v | v in b.voters ensures SameButWeights(b.voters[v], b''.voters[v]) {
      assert SameButWeights(b'.voters[v], b''.voters[v]);
    }
    forall p | p in b.producers ensures SameButVotes(b.producers[p], b''.producers[p]) {
      assert SameButVotes(b'.producers[p], b''.producers[p]);
    }
  }

  lemma SameKeys(b: Book, b': Book)
    requires OnlyWeights(b, b')
    ensures b'.voters.Keys == b.voters.Keys && b'.producers.Keys == b.producers.Keys && b'.shares.Keys == b.shares.Keys
  {
  }

  lemma {:induction false} CountAllFrame(t: Tally, ballots: seq<Ballot>, clamp: bool, now: int)
    requires AllKnown(ballots, t.book)
    ensures OnlyWeights(t.book, CountAll(t, ballots, clamp, now).book)
  {
    if ballots != [] {
      CountAllFrame(t, ballots[..|ballots| - 1], clamp, now);
    }
  }

  lemma SetWeightAfter(b: Book, b': Book, x: Name, w: real, rank: Ranks)
    requires OnlyWeights(b, b') && x in b.voters && b'.voters[x] == b.voters[x]
    requires forall v :: v in b.voters && v != x && At(rank, v) >= At(rank, x) ==> b'.voters[v] == b.voters[v]
    ensures OnlyWeights(b, SetWeight(b', x, w))
    ensures forall v :: v in b.voters && v != x && At(rank, v) >= At(rank, x) ==>
      SetWeight(b', x, w).voters[v] == b.voters[v]
    ensures SetWeight(b', x, w).voters[x] == b.voters[x].(lastWeight := w)
  {
  }

  lemma AddProxiedFrame(b: Book, x: Name, delta: real, rank: Ranks)
    requires x in b.voters && Ranked(b.voters, rank)
    ensures OnlyWeights(b, AddProxied(b, x, delta))
    ensures Ranked(AddProxied(b, x, delta).voters, rank)
    ensures BallotsKnown(AddProxied(b, x, delta)) == BallotsKnown(b)
  {
    var b' := AddProxied(b, x, delta);
    assert forall v :: v in b.voters ==> b'.voters[v].producers == b.voters[v].producers;
    assert forall v :: v in b.voters ==> Registered(b'.voters[v].producers, b') == Registered(b.voters[v].producers, b);
  }

  lemma CastAllFrame(b: Book, ballots: seq<Ballot>, clamp: bool, now: int)
    requires AllKnown(ballots, b)
    ensures OnlyWeights(b, CastAll(b, ballots, clamp, now))
  {
    CountAllFrame(Tally(b, 0.0, 0.0), ballots, clamp, now);
  }

  /** One unfolding of the recursion. */
  lemma PropagateUnfolds(b: Book, x: Name, seen: set<Name>, k: Clock)
    requires x in b.voters && x !in seen
    requires b.voters[x].proxy != NO_NAME ==> b.voters[x].proxy in b.voters
    ensures var row := b.voters[x];
      var w := StakeToVote(row.staked, k.growth);
      var c := Shift(row, k.growth);
      Propagate(b, x, seen, k) ==
        if Magnitude(c) <= 1.0 then Success(SetWeight(b, x, w))
        else if row.proxy == NO_NAME then
          if !Registered(row.producers, b) then Failure(ProducerNotFound)
          else Success(SetWeight(CastAll(b, SameDelta(row.producers, c), false, k.now), x, w))
        else
          var r := Propagate(AddProxied(b, row.proxy, c), row.proxy, seen + {x}, k);
          if r.Failure? then r else Success(SetWeight(r.value, x, w))
  {
  }

  lemma ListedUnlessUnknown(b: Book, x: Name)
    requires x in b.voters
    ensures BallotsKnown(b) ==> Registered(b.voters[x].producers, b)
  {
  }

  /** On an acyclic graph propagation ends: it never meets a voter again, and fails only on a ballot
      for an unregistered producer. Among the voters at or above the rank of `x` it changes nothing
      but the weight of `x`. */
  lemma {:induction false} PropagateFrame(b: Book, x: Name, seen: set<Name>, k: Clock, rank: Ranks)
    returns (b': Book)
    requires x in b.voters && Ranked(b.voters, rank)
    requires forall y :: y in seen ==> At(rank, y) > At(rank, x)
    ensures Propagate(b, x, seen, k) == Success(b')
      || (Propagate(b, x, seen, k) == Failure(ProducerNotFound) && b' == b && !BallotsKnown(b))
    ensures OnlyWeights(b, b')
    ensures forall v :: v in b.voters && v != x && At(rank, v) >= At(rank, x) ==> b'.voters[v] == b.voters[v]
    ensures Propagate(b, x, seen, k).Success? ==>
      b'.voters[x] == b.voters[x].(lastWeight := StakeToVote(b.voters[x].staked, k.growth))
    decreases At(rank, x)
  {
    hide OnlyWeights, BallotsKnown, CastAll;
    assert Registered(b.voters[x].producers, b) || !BallotsKnown(b) by { ListedUnlessUnknown(b, x); }
    var row := b.voters[x];
    var w := StakeToVote(row.staked, k.growth);
    var c := Shift(row, k.growth);
    PropagateUnfolds(b, x, seen, k);
    hide Propagate;
    OnlyWeightsReflexive(b);
    if Magnitude(c) <= 1.0 {
      b' := SetWeight(b, x, w);
      SetWeightAfter(b, b, x, w, rank);
    } else if row.proxy == NO_NAME {
      if Registered(row.producers, b) {
        var b1 := CastAll(b, SameDelta(row.producers, c), false, k.now);
        CastAllFrame(b, SameDelta(row.producers, c), false, k.now);
        b' := SetWeight(b1, x, w);
        SetWeightAfter(b, b1, x, w, rank);
      } else {
        b' := b;
      }
    } else {
      var b1 := AddProxied(b, row.proxy, c);
      AddProxiedFrame(b, row.proxy, c, rank);
      var b2 := PropagateFrame(b1, row.proxy, seen + {x}, k, rank);
      if Propagate(b1, row.proxy, seen + {x}, k).Success? {
        b' := SetWeight(b2, x, w);
        OnlyWeightsTransitive(b, b1, b2);
        SetWeightAfter(b, b2, x, w, rank);
      } else {
        b' := b;
      }
    }
  }

  /** Propagation terminates from every voter of an acyclic graph. */
  lemma PropagationTerminates(b: Book, x: Name, k: Clock)
    requires x in b.voters && Acyclic(b.voters)
    ensures Propagate(b, x, {}, k) != Failure(Diverges)
    ensures BallotsKnown(b) ==> Propagate(b, x, {}, k).Success?
  {
    var rank: Ranks :| Ranked(b.voters, rank);
    var _ := PropagateFrame(b, x, {}, k, rank);
  }
}
