/** The voting tables of two accounts: ALICE, who becomes a proxy and votes for herself, and BOB, who lends to
    her for a while. Each step is an action of the voting tables with the weights left open. */
module TwoAccounts {
  import opened Basics
  import opened Names
  import opened Sums
  import opened Voting
  import opened ProxyGraph
  import opened VoteLedger
  import opened VotePayIndex

  const ALICE: Name := 0x345C_8500_0000_0000
  const BOB: Name := 0x3D0E_0000_0000_0000

  // ---------- casting no ballot, or one ----------

  lemma SortedOne(p: Name)
    ensures Sorted({p}) == [p] && Sorted({}) == []
  {
    assert Least(p, {p});
    assert {p} - {p} == {};
  }

  lemma NoBallot()
    ensures InOrder(map[]) == []
  {
    var d: Deltas := map[];
    assert d.Keys == {};
    SortedOne(0);
  }

  lemma OneBallot(d: Deltas, v: Ballot)
    requires d == map[v.producer := v]
    ensures InOrder(d) == [v]
  {
    assert d.Keys == {v.producer};
    SortedOne(v.producer);
  }

  lemma CastNone(b: Book, clamp: bool, now: int)
    ensures CastAll(b, [], clamp, now) == b.(totalShare := CastAll(b, [], clamp, now).totalShare, shareUpdated := now)
  {
  }

  /** What a single ballot does to a producer who is earning. */
  ghost predicate CastTo(b: Book, b': Book, v: Ballot, now: int)
    requires v.producer in b.producers
  {
    var p, votes := v.producer, b.producers[v.producer].votes + v.delta;
    && b'.voters == b.voters && b'.activatedAt == b.activatedAt
    && b'.producers == b.producers[p := b.producers[p].(votes := if votes < 0.0 then 0.0 else votes)]
    && b'.totalVotes == b.totalVotes + v.delta
    && b'.shares.Keys == b.shares.Keys && p in b'.shares && b'.shares[p].updated == now
    && (forall q :: q in b.shares && q != p ==> b'.shares[q] == b.shares[q])
    && b'.shareRate == (if v.delta < 0.0 && b.shareRate < -v.delta then 0.0 else b.shareRate + v.delta)
  }

  lemma CastOne(b: Book, v: Ballot, now: int)
    requires v.producer in b.producers && v.producer in b.shares && now < b.producers[v.producer].lastClaim + THREE_DAYS
    ensures CastTo(b, CastAll(b, [v], true, now), v, now)
  {
    hide AdvancedShare;
    var t := Tally(b, 0.0, 0.0);
    assert [v][..0] == [];
    assert CountAll(t, [v], true, now) == Count(t, v, true, now);
  }

  lemma CheckOne(b: Book, voter: Name, v: Ballot)
    requires v.producer == voter && voter in b.producers && b.producers[voter].active
    ensures CheckBallots(b, voter, [v], true).Met?
  {
    assert [v][..0] == [];
  }

  /** A vote from its stages. */
  lemma VoteByStages(b: Book, voter: Name, proxy: Name, producers: seq<Name>, k: Clock, left: Book, joined: Book, ballots: seq<Ballot>)
    requires CheckChoice(b, voter, proxy, producers).Met?
    requires LeaveProxy(Activate(b, voter, k.now), b.voters[voter], k) == Success(left)
    requires JoinProxy(left, proxy, NewWeight(b.voters[voter], k.growth), true, k) == Success(joined)
    requires ballots == InOrder(BallotDeltas(b.voters[voter], proxy, producers, NewWeight(b.voters[voter], k.growth)))
    requires CheckBallots(joined, voter, ballots, true).Met? && voter in joined.voters
    ensures AllKnown(ballots, joined)
    ensures UpdateVotes(b, voter, proxy, producers, true, k)
      == Success(Record(CastAll(joined, ballots, true, k.now), voter, proxy, producers, NewWeight(b.voters[voter], k.growth)))
  {
    hide CheckChoice, LeaveProxy, JoinProxy, CastAll, InOrder, BallotDeltas, NewWeight, Activate;
  }

  // ---------- the voting tables of two accounts ----------

  predicate Earns(b: Book, p: Name, votes: real, since: int, now: int)
    requires p in b.producers && p in b.shares
  {
    && b.producers[p].votes == votes && b.producers[p].active && b.producers[p].lastClaim == since
    && since <= b.shares[p].updated <= now < since + THREE_DAYS
  }

  /** Their rows as voters, their votes as producers, and the two totals. */
  ghost predicate Tables(b: Book, alice: Voter, bob: Voter, votesA: real, votesB: real, rate: real, total: real, since: int, now: int) {
    && b.voters == map[ALICE := alice, BOB := bob]
    && b.producers.Keys == {ALICE, BOB} && b.shares.Keys == {ALICE, BOB}
    && Earns(b, ALICE, votesA, since, now) && Earns(b, BOB, votesB, since, now)
    && b.shareRate == rate && b.totalVotes == total
  }

  function Fresh(staked: int): Voter { NEW_VOTER.(staked := staked) }

  /** ALICE, who only has stake, becomes a proxy. */
  lemma ProxyOn(b: Book, s: int, l: int, since: int, k: Clock) returns (b': Book)
    requires Tables(b, Fresh(s), Fresh(l), 0.0, 0.0, 0.0, 0.0, since, k.now) && StakeToVote(s, k.growth) > 1.0
    ensures RegProxy(b, ALICE, true, k) == Success(b')
    ensures var w := StakeToVote(s, k.growth);
      Tables(b', Fresh(s).(isProxy := true, lastWeight := w), Fresh(l), 0.0, 0.0, 0.0, 0.0, since, k.now)
  {
    hide StakeToVote, CastAll;
    var b1 := b.(voters := b.voters[ALICE := Fresh(s).(isProxy := true)]);
    assert SameDelta([], Shift(b1.voters[ALICE], k.growth)) == [];
    CastNone(b1, false, k.now);
    PropagateUnfolds(b1, ALICE, {}, k);
    b' := RegProxy(b, ALICE, true, k).value;
  }

  /** BOB chooses ALICE. */
  lemma Join(b: Book, s: int, l: int, since: int, k: Clock) returns (b': Book)
    requires var w := StakeToVote(s, k.growth);
      Tables(b, Fresh(s).(isProxy := true, lastWeight := w), Fresh(l), 0.0, 0.0, 0.0, 0.0, since, k.now)
    requires StakeToVote(l, k.growth) >= 0.0
    ensures UpdateVotes(b, BOB, ALICE, [], true, k) == Success(b')
    ensures var w, v := StakeToVote(s, k.growth), StakeToVote(l, k.growth);
      Tables(b', Fresh(s).(isProxy := true, lastWeight := w, proxied := v), Fresh(l).(proxy := ALICE, lastWeight := v),
             0.0, 0.0, 0.0, 0.0, since, k.now)
  {
    hide StakeToVote, CastAll;
    var v := StakeToVote(l, k.growth);
    var left := Activate(b, BOB, k.now);
    var lent := AddProxied(left, ALICE, v);
    PropagateUnfolds(lent, ALICE, {}, k);
    NoBallot();
    VoteByStages(b, BOB, ALICE, [], k, left, SetWeight(lent, ALICE, StakeToVote(s, k.growth)), []);
    CastNone(SetWeight(lent, ALICE, StakeToVote(s, k.growth)), true, k.now);
    b' := UpdateVotes(b, BOB, ALICE, [], true, k).value;
  }

  /** ALICE votes for herself, with what BOB has lent her. */
  lemma VoteSelf(b: Book, s: int, l: int, since: int, k: Clock) returns (b': Book)
    requires var w, v := StakeToVote(s, k.growth), StakeToVote(l, k.growth);
      Tables(b, Fresh(s).(isProxy := true, lastWeight := w, proxied := v), Fresh(l).(proxy := ALICE, lastWeight := v),
             0.0, 0.0, 0.0, 0.0, since, k.now)
    requires StakeToVote(s, k.growth) > 1.0 && StakeToVote(l, k.growth) >= 0.0
    ensures UpdateVotes(b, ALICE, NO_NAME, [ALICE], true, k) == Success(b')
    ensures var w, v := StakeToVote(s, k.growth), StakeToVote(l, k.growth);
      Tables(b', Fresh(s).(isProxy := true, lastWeight := w + v, proxied := v, producers := [ALICE]),
             Fresh(l).(proxy := ALICE, lastWeight := v), w + v, 0.0, w + v, w + v, since, k.now)
  {
    hide StakeToVote, CastAll, Count;
    var w := StakeToVote(s, k.growth) + StakeToVote(l, k.growth);
    var a := Activate(b, ALICE, k.now);
    var ballot := Ballot(ALICE, w, true);
    NewOnly(map[], ALICE, w);
    OneBallot(BallotDeltas(b.voters[ALICE], NO_NAME, [ALICE], w), ballot);
    CheckOne(a, ALICE, ballot);
    VoteByStages(b, ALICE, NO_NAME, [ALICE], k, a, a, [ballot]);
    CastOne(a, ballot, k.now);
    b' := UpdateVotes(b, ALICE, NO_NAME, [ALICE], true, k).value;
  }

  lemma NewOnly(d: Deltas, p: Name, w: real)
    requires d == map[]
    ensures AddBallots(d, [p], w, true) == map[p := Ballot(p, w, true)]
    ensures AddBallots(d, [p], w, false) == map[p := Ballot(p, w, false)]
  {
    assert [p][..0] == [];
  }

  /** In the next week ALICE stops being a proxy; the change is no bigger than 1 and is skipped. */
  lemma ProxyOff(b: Book, alice: Voter, bob: Voter, votes: real, rate: real, since: int, k: Clock) returns (b': Book)
    requires Tables(b, alice, bob, votes, 0.0, rate, rate, since, k.now) && alice.isProxy
    requires Magnitude(StakeToVote(alice.staked, k.growth) - alice.lastWeight) <= 1.0
    ensures RegProxy(b, ALICE, false, k) == Success(b')
    ensures Tables(b', alice.(isProxy := false, lastWeight := StakeToVote(alice.staked, k.growth)), bob,
                   votes, 0.0, rate, rate, since, k.now)
  {
    hide StakeToVote, CastAll;
    b' := RegProxy(b, ALICE, false, k).value;
  }

  /** BOB leaves ALICE, who has just been weighed, and votes for himself. */
  lemma Leave(b: Book, alice: Voter, bob: Voter, votes: real, since: int, k: Clock) returns (b': Book)
    requires Tables(b, alice, bob, votes, 0.0, votes, votes, since, k.now)
    requires alice.lastWeight == StakeToVote(alice.staked, k.growth) && alice.proxy == NO_NAME
    requires bob.proxy == ALICE && !bob.isProxy && bob.lastWeight > 0.0
    requires StakeToVote(bob.staked, k.growth) >= 0.0
    ensures UpdateVotes(b, BOB, NO_NAME, [BOB], true, k) == Success(b')
    ensures var v := StakeToVote(bob.staked, k.growth);
      Tables(b', alice.(proxied := alice.proxied - bob.lastWeight), bob.(proxy := NO_NAME, producers := [BOB], lastWeight := v),
             votes, v, votes + v, votes + v, since, k.now)
  {
    hide StakeToVote, CastAll, Count;
    var v := StakeToVote(bob.staked, k.growth);
    var a := Activate(b, BOB, k.now);
    var lent := AddProxied(a, ALICE, -bob.lastWeight);
    PropagateUnfolds(lent, ALICE, {}, k);
    var left := SetWeight(lent, ALICE, alice.lastWeight);
    var ballot := Ballot(BOB, v, true);
    NewOnly(map[], BOB, v);
    OneBallot(BallotDeltas(bob, NO_NAME, [BOB], v), ballot);
    CheckOne(left, BOB, ballot);
    VoteByStages(b, BOB, NO_NAME, [BOB], k, left, left, [ballot]);
    CastOne(left, ballot, k.now);
    b' := UpdateVotes(b, BOB, NO_NAME, [BOB], true, k).value;
  }

  /** ALICE votes for nobody: her last weight is more than the votes she has, and the clamp fires. */
  lemma VoteNobody(b: Book, alice: Voter, bob: Voter, votes: real, v: real, since: int, k: Clock) returns (b': Book)
    requires Tables(b, alice, bob, votes, v, votes + v, votes + v, since, k.now)
    requires alice.proxy == NO_NAME && alice.producers == [ALICE] && !alice.isProxy
    requires alice.lastWeight > 0.0 && votes < alice.lastWeight <= votes + v && StakeToVote(alice.staked, k.growth) >= 0.0
    ensures UpdateVotes(b, ALICE, NO_NAME, [], true, k) == Success(b')
    ensures Tables(b', alice.(producers := [], lastWeight := StakeToVote(alice.staked, k.growth)), bob,
                   0.0, v, votes + v - alice.lastWeight, votes + v - alice.lastWeight, since, k.now)
  {
    hide StakeToVote, CastAll, Count;
    var w := StakeToVote(alice.staked, k.growth);
    var a := Activate(b, ALICE, k.now);
    var ballot := Ballot(ALICE, -alice.lastWeight, false);
    NewOnly(map[], ALICE, -alice.lastWeight);
    OneBallot(BallotDeltas(alice, NO_NAME, [], w), ballot);
    CheckOne(a, ALICE, ballot);
    VoteByStages(b, ALICE, NO_NAME, [], k, a, a, [ballot]);
    CastOne(a, ballot, k.now);
    b' := UpdateVotes(b, ALICE, NO_NAME, [], true, k).value;
  }

  // ---------- what the tables are worth ----------

  lemma TotalOfTwo(m: map<Name, real>, x: real, y: real)
    requires m == map[ALICE := x, BOB := y]
    ensures Total(m) == x + y
  {
    TotalTake(m, ALICE);
    TotalTake(m - {ALICE}, BOB);
    assert m - {ALICE} - {BOB} == map[];
    TotalOfZeros(m - {ALICE} - {BOB});
  }

  lemma VotesOfTwo(b: Book, alice: Voter, bob: Voter, p: Name)
    requires b.voters == map[ALICE := alice, BOB := bob]
    ensures Total(VoteColumn(b.voters, p)) == VoteOf(alice, p) + VoteOf(bob, p)
    ensures Total(LentColumn(b.voters, p)) == LentTo(alice, p) + LentTo(bob, p)
  {
    hide Total;
    assert VoteColumn(b.voters, p) == map[ALICE := VoteOf(alice, p), BOB := VoteOf(bob, p)];
    TotalOfTwo(VoteColumn(b.voters, p), VoteOf(alice, p), VoteOf(bob, p));
    assert LentColumn(b.voters, p) == map[ALICE := LentTo(alice, p), BOB := LentTo(bob, p)];
    TotalOfTwo(LentColumn(b.voters, p), LentTo(alice, p), LentTo(bob, p));
  }

  lemma TotalsOfTwo(b: Book, alice: Voter, bob: Voter, votesA: real, votesB: real, rate: real, total: real, since: int, now: int)
    requires Tables(b, alice, bob, votesA, votesB, rate, total, since, now)
    ensures TotalGap(b) == total - votesA - votesB && TotalRate(b) == votesA + votesB
  {
    hide Total;
    assert TotalsColumn(b.producers) == map[ALICE := votesA, BOB := votesB];
    TotalOfTwo(TotalsColumn(b.producers), votesA, votesB);
    assert RateColumn(b) == map[ALICE := votesA, BOB := votesB];
    TotalOfTwo(RateColumn(b), votesA, votesB);
  }

  /** While BOB lends to ALICE the ledger is exact if and only if she has the votes of her last weight. */
  lemma LendingExactIff(b: Book, alice: Voter, bob: Voter, votes: real, rate: real, since: int, now: int)
    requires Tables(b, alice, bob, votes, 0.0, rate, votes, since, now)
    requires alice.proxy == NO_NAME && alice.producers == [ALICE] && bob.proxy == ALICE && bob.producers == []
    requires alice.proxied == bob.lastWeight && bob.proxied == 0.0
    ensures Exact(b) <==> votes == alice.lastWeight
  {
    hide Total;
    VotesOfTwo(b, alice, bob, ALICE);
    VotesOfTwo(b, alice, bob, BOB);
    TotalsOfTwo(b, alice, bob, votes, 0.0, rate, votes, since, now);
  }
}
