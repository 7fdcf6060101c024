/** The voting tables and what each step of voting.cpp does to them. */
module Voting {
  import opened Basics
  import opened Names

  const THREE_DAYS: int := 3 * DAY
  const MIN_ACTIVATED_STAKE: int := 1_0000
  const MAX_BALLOT: int := 30

  /** The `mem_managed`, `net_managed` and `cpu_managed` bits of `flags1`. */
  datatype Flags = Flags(mem: bool, net: bool, cpu: bool)

  const UNMANAGED: Flags := Flags(false, false, false)

  datatype Voter = Voter(proxy: Name, producers: seq<Name>, staked: int,
                         lastWeight: real, proxied: real, isProxy: bool, flags: Flags)

  const NEW_VOTER: Voter := Voter(NO_NAME, [], 0, 0.0, 0.0, false, UNMANAGED)

  datatype Producer = Producer(votes: real, active: bool, isProducer: bool, unpaid: nat, lastClaim: int)

  /** A row of the second producer table: a vote-pay share and the time it was brought up to date. */
  datatype Share = Share(amount: real, updated: int)

  datatype Book = Book(
    voters: map<Name, Voter>, producers: map<Name, Producer>, shares: map<Name, Share>,
    totalVotes: real,                                          // total_producer_vote_weight
    totalShare: real, shareRate: real, shareUpdated: int,      // the lazily kept global share
    activatedStake: int, activatedAt: int)

  function Secs(us: int): real { us as real / 1000000.0 }

  function StakeToVote(staked: int, growth: Growth): real { staked as real * growth }

  function Magnitude(x: real): real { if x < 0.0 then -x else x }

  // ---------- vote-pay shares ----------

  function UpdateTotalShare(b: Book, now: int, extra: real, rateDelta: real): Book {
    var accrued := (if now > b.shareUpdated then b.shareRate * Secs(now - b.shareUpdated) else 0.0) + extra;
    b.(totalShare := if accrued < 0.0 && b.totalShare < -accrued then 0.0 else b.totalShare + accrued,
       shareRate := if rateDelta < 0.0 && b.shareRate < -rateDelta then 0.0 else b.shareRate + rateDelta,
       shareUpdated := now)
  }

  function AdvancedShare(sh: Share, now: int, rate: real): real {
    sh.amount + (if rate > 0.0 && now > sh.updated then rate * Secs(now - sh.updated) else 0.0)
  }

  /** The books while a loop over producers runs, with its two accumulators. */
  datatype Tally = Tally(book: Book, rate: real, inactive: real)

  datatype Ballot = Ballot(producer: Name, delta: real, isNew: bool)

  /** One turn of the loops at voting.cpp:339 and 429; only the first clamps negative votes. */
  function Count(t: Tally, v: Ballot, clamp: bool, now: int): Tally
    requires v.producer in t.book.producers
  {
    var p := v.producer;
    var row := t.book.producers[p];
    var votes := row.votes + v.delta;
    var b := t.book.(producers := t.book.producers[p := row.(votes := if clamp && votes < 0.0 then 0.0 else votes)],
                     totalVotes := t.book.totalVotes + v.delta);
    if p !in b.shares then Tally(b, t.rate, t.inactive)
    else
      var expiry := row.lastClaim + THREE_DAYS;
      var crossed := expiry <= now;
      var late := expiry <= b.shares[p].updated;
      var share := AdvancedShare(b.shares[p], now, if late then 0.0 else row.votes);
      var b' := b.(shares := b.shares[p := Share(if crossed && !late then 0.0 else share, now)]);
      if !crossed then Tally(b', t.rate + v.delta, t.inactive)
      else if !late then Tally(b', t.rate - row.votes, t.inactive + share)
      else Tally(b', t.rate, t.inactive)
  }

  ghost predicate AllKnown(ballots: seq<Ballot>, b: Book) {
    forall i :: 0 <= i < |ballots| ==> ballots[i].producer in b.producers
  }

  function CountAll(t: Tally, ballots: seq<Ballot>, clamp: bool, now: int): (r: Tally)
    requires AllKnown(ballots, t.book)
    ensures r.book.producers.Keys == t.book.producers.Keys && r.book.voters == t.book.voters
  {
    if ballots == [] then t
    else Count(CountAll(t, ballots[..|ballots| - 1], clamp, now), ballots[|ballots| - 1], clamp, now)
  }

  /** The loop over producers followed by the update of the global share that ends both callers. */
  function CastAll(b: Book, ballots: seq<Ballot>, clamp: bool, now: int): (r: Book)
    requires AllKnown(ballots, b)
    ensures r.voters == b.voters
  {
    var t := CountAll(Tally(b, 0.0, 0.0), ballots, clamp, now);
    UpdateTotalShare(t.book, now, -t.inactive, t.rate)
  }

  // ---------- proxies ----------

  function AddProxied(b: Book, x: Name, delta: real): Book
    requires x in b.voters
  {
    b.(voters := b.voters[x := b.voters[x].(proxied := b.voters[x].proxied + delta)])
  }

  function SetWeight(b: Book, x: Name, w: real): Book
    requires x in b.voters
  {
    b.(voters := b.voters[x := b.voters[x].(lastWeight := w)])
  }

  function Shift(row: Voter, growth: Growth): real {
    StakeToVote(row.staked, growth) - row.lastWeight
  }

  function SameDelta(ps: seq<Name>, delta: real): seq<Ballot> {
    seq(|ps|, i requires 0 <= i < |ps| => Ballot(ps[i], delta, false))
  }

  /** `propagate_weight_change`. `seen` holds the voters whose change is being propagated: a voter
      met twice would make the recursion of the source run until the transaction is aborted. */
  function Propagate(b: Book, x: Name, seen: set<Name>, k: Clock): (r: Result<Book>)
    requires x in b.voters
    ensures r.Success? ==> r.value.voters.Keys == b.voters.Keys
    decreases b.voters.Keys - seen
  {
    var row := b.voters[x];
    var c := Shift(row, k.growth);
    if x in seen then Failure(Diverges)
    else if Magnitude(c) <= 1.0 then Success(SetWeight(b, x, StakeToVote(row.staked, k.growth)))
    else if row.proxy != NO_NAME then
      :- Need(row.proxy in b.voters, ProxyMissing);
      var b' :- Propagate(AddProxied(b, row.proxy, c), row.proxy, seen + {x}, k);
      Success(SetWeight(b', x, StakeToVote(row.staked, k.growth)))
    else
      :- Need(forall p :: p in row.producers ==> p in b.producers, ProducerNotFound);
      Success(SetWeight(CastAll(b, SameDelta(row.producers, c), false, k.now), x, StakeToVote(row.staked, k.growth)))
  }

  function RegProxy(b: Book, who: Name, on: bool, k: Clock): Result<Book> {
    if who in b.voters then
      :- Need(on != b.voters[who].isProxy, NoEffect);
      :- Need(!on || b.voters[who].proxy == NO_NAME, AlreadyUsingProxy);
      Propagate(b.(voters := b.voters[who := b.voters[who].(isProxy := on)]), who, {}, k)
    else
      Success(b.(voters := b.voters[who := NEW_VOTER.(isProxy := on)]))
  }

  // ---------- voting ----------

  type Deltas = map<Name, Ballot>

  /** `producer_deltas[p].first -= w` (or `+= w`) over a ballot. */
  function AddBallots(d: Deltas, ps: seq<Name>, w: real, isNew: bool): (r: Deltas)
    ensures forall p :: p in r <==> p in d || p in ps
  {
    if ps == [] then d
    else
      var d' := AddBallots(d, ps[..|ps| - 1], w, isNew);
      var p := ps[|ps| - 1];
      d'[p := Ballot(p, (if p in d' then d'[p].delta else 0.0) + w, isNew)]
  }

  function InOrder(d: Deltas): (r: seq<Ballot>)
    ensures |r| == |Sorted(d.Keys)|
  {
    var ks := Sorted(d.Keys);
    seq(|ks|, i requires 0 <= i < |ks| => d[ks[i]])
  }

  function BallotDeltas(row: Voter, proxy: Name, producers: seq<Name>, w: real): Deltas {
    var undone := if row.lastWeight > 0.0 && row.proxy == NO_NAME
                  then AddBallots(map[], row.producers, -row.lastWeight, false) else map[];
    if proxy == NO_NAME && w >= 0.0 then AddBallots(undone, producers, w, true) else undone
  }

  /** The first failing check of the loop over `producer_deltas`. */
  function CheckBallots(b: Book, voter: Name, ballots: seq<Ballot>, voting: bool): (r: Required)
    ensures r.Met? ==> forall i :: 0 <= i < |ballots| ==>
      ballots[i].producer == voter && voter in b.producers
      && (voting && ballots[i].isNew ==> b.producers[voter].active)
  {
    if ballots == [] then Met
    else
      var earlier := CheckBallots(b, voter, ballots[..|ballots| - 1], voting);
      var v := ballots[|ballots| - 1];
      if earlier.Unmet? then earlier
      else if v.producer != voter || v.producer !in b.producers then Unmet(NotOwnProducer)
      else Need(!(voting && !b.producers[v.producer].active && v.isNew), ProducerInactive)
  }

  predicate UniqueAndSorted(ps: seq<Name>) {
    forall i :: 1 <= i < |ps| ==> ps[i - 1] < ps[i]
  }

  function CheckChoice(b: Book, voter: Name, proxy: Name, producers: seq<Name>): (r: Required)
    ensures r.Met? ==> voter in b.voters
    ensures r.Met? ==> if proxy != NO_NAME then proxy != voter && producers == [] && !b.voters[voter].isProxy else UniqueAndSorted(producers)
  {
    if proxy != NO_NAME && producers != [] then Unmet(ProducersAndProxy)
    else if proxy != NO_NAME && voter == proxy then Unmet(ProxyToSelf)
    else if proxy == NO_NAME && |producers| > MAX_BALLOT then Unmet(TooManyProducers)
    else if proxy == NO_NAME && !UniqueAndSorted(producers) then Unmet(UnsortedProducers)
    else if voter !in b.voters then Unmet(NoVoter)
    else Need(proxy == NO_NAME || !b.voters[voter].isProxy, ProxyUsingProxy)
  }

  function Activate(b: Book, voter: Name, now: int): Book
    requires voter in b.voters
  {
    if b.activatedAt == 0 && b.voters[voter].lastWeight <= 0.0 then
      var stake := b.activatedStake + b.voters[voter].staked;
      b.(activatedStake := stake, activatedAt := if stake >= MIN_ACTIVATED_STAKE then now else b.activatedAt)
    else b
  }

  function NewWeight(row: Voter, growth: Growth): real {
    StakeToVote(row.staked, growth) + if row.isProxy then row.proxied else 0.0
  }

  /** Takes the voter's last weight back from the proxy it used. */
  function LeaveProxy(b: Book, row: Voter, k: Clock): (r: Result<Book>)
    ensures r.Success? ==> r.value.voters.Keys == b.voters.Keys
  {
    if row.lastWeight > 0.0 && row.proxy != NO_NAME then
      :- Need(row.proxy in b.voters, OldProxyMissing);
      Propagate(AddProxied(b, row.proxy, -row.lastWeight), row.proxy, {}, k)
    else Success(b)
  }

  /** Hands the voter's new weight to the proxy it chooses. */
  function JoinProxy(b: Book, proxy: Name, w: real, voting: bool, k: Clock): (r: Result<Book>)
    ensures r.Success? ==> r.value.voters.Keys == b.voters.Keys
  {
    if proxy == NO_NAME then Success(b)
    else
      :- Need(proxy in b.voters, NotAProxy);
      :- Need(!voting || b.voters[proxy].isProxy, ProxyNotFound);
      if w >= 0.0 then Propagate(AddProxied(b, proxy, w), proxy, {}, k) else Success(b)
  }

  function Record(b: Book, voter: Name, proxy: Name, producers: seq<Name>, w: real): Book
    requires voter in b.voters
  {
    b.(voters := b.voters[voter := b.voters[voter].(lastWeight := w, producers := producers, proxy := proxy)])
  }

  function UpdateVotes(b: Book, voter: Name, proxy: Name, producers: seq<Name>, voting: bool, k: Clock): (r: Result<Book>)
  {
    var choice := CheckChoice(b, voter, proxy, producers);
    :- choice;
    var row := b.voters[voter];
    var w := NewWeight(row, k.growth);
    var left :- LeaveProxy(Activate(b, voter, k.now), row, k);
    var joined :- JoinProxy(left, proxy, w, voting, k);
    var ballots := InOrder(BallotDeltas(row, proxy, producers, w));
    :- CheckBallots(joined, voter, ballots, voting);
    Success(Record(CastAll(joined, ballots, true, k.now), voter, proxy, producers, w))
  }

  // ---------- producers ----------

  function Register(b: Book, producer: Name, now: int): Book {
    if producer in b.producers then
      var row := b.producers[producer];
      var b' := b.(producers := b.producers[producer := row.(active := true,
                     lastClaim := if row.lastClaim == 0 then now else row.lastClaim)]);
      if producer in b.shares then b'
      else UpdateTotalShare(b'.(shares := b.shares[producer := Share(0.0, now)]), now, 0.0, row.votes)
    else
      b.(producers := b.producers[producer := Producer(0.0, true, false, 0, now)],
         shares := b.shares[producer := Share(0.0, now)])
  }

  function Deactivate(row: Producer): Producer { row.(active := false, isProducer := false) }
}
