/** Block and vote rewards: producer_pay.cpp. */
module Rewards {
  import opened Basics
  import opened Voting
  import opened Token
  import opened Chain
  import opened Election

  const MIN_VOTE_PAY: real := 1000000.0
  const WORD: int := 0x1_0000_0000

  /** The cast of a double to an integer: towards zero. */
  function Trunc(x: real): int { if x < 0.0 then -((-x).Floor) else x.Floor }

  function UpdateElected(c: Chain, slot: nat): Chain {
    var top := Elected(c.book.producers);
    c.(pay := c.pay.(scheduleSlot := slot, proposed := if top == [] then c.pay.proposed else set x | x in top))
  }

  /** Starts the presses once, and counts the block for a registered producer. */
  function CountBlock(c: Chain, producer: Name): Chain {
    var c1 := if c.pay.filledAt == 0 then c.(pay := c.pay.(filledAt := c.now)) else c;
    if producer in c.book.producers then
      var row := c.book.producers[producer];
      c1.(pay := c1.pay.(unpaid := c1.pay.unpaid + 1),
          book := c.book.(producers := c.book.producers[producer := row.(unpaid := row.unpaid + 1)]))
    else c1
  }

  function OnBlock(c: Chain, auth: set<Name>, slot: nat, producer: Name): Result<Chain> {
    var signed := SYSTEM in auth;
    :- Need(signed, MissingAuthority);
    if c.book.activatedAt == 0 then Success(c)
    else
      var counted := CountBlock(c, producer);
      Success(if (slot - counted.pay.scheduleSlot) % WORD > 1 then UpdateElected(counted, slot) else counted)
  }

  /** How newly issued tokens are split. */
  datatype Split = Split(savings: int, perBlock: int, perVote: int)

  function SplitTokens(minted: int, p: Pay): Split {
    var producers := minted * PAY_PRECISION / p.payFactor;
    var perBlock := producers * PAY_PRECISION / p.voteFactor;
    Split(minted - producers, perBlock, producers - perBlock)
  }

  function SendSome(c: Chain, from: Name, to: Name, amount: int): Result<Chain> {
    if amount > 0 then Send(c, from, to, amount) else Success(c)
  }

  /** Issues new tokens and passes all of them on to the savings and the two pay accounts. */
  function PassOn(c: Chain, minted: nat, split: Split): Result<Chain> {
    var t :- Issue(c.token, {SYSTEM}, SYSTEM, Inr(minted));
    var c2 :- SendSome(c.(token := t), SYSTEM, SAVING, split.savings);
    var c3 :- SendSome(c2, SYSTEM, BPAY, split.perBlock);
    SendSome(c3, SYSTEM, VPAY, split.perVote)
  }

  /** Issues the inflation since the last fill and puts it in the savings and the two buckets. */
  function FillBuckets(c: Chain, minted: nat): Result<Chain> {
    if !(c.now > c.pay.filledAt && c.pay.filledAt > 0) then Success(c)
    else
      var s := SplitTokens(minted, c.pay);
      var c4 :- if minted == 0 then Success(c) else PassOn(c, minted, s);
      Success(c4.(pay := c4.pay.(perVote := c4.pay.perVote + s.perVote, perBlock := c4.pay.perBlock + s.perBlock, filledAt := c.now)))
  }

  function BlockPay(p: Pay, unpaid: nat): int {
    if p.unpaid > 0 then p.perBlock * unpaid / p.unpaid else 0
  }

  /** The vote pay before rounding. Without the revision it is the plain ratio of votes. */
  function VotePay(p: Pay, share: real, totalShare: real, crossed: bool, votes: real, totalVotes: real): real {
    var pay :=
      if p.revision > 0 then
        if totalShare > 0.0 && !crossed then
          var x := share * p.perVote as real / totalShare;
          if x > p.perVote as real then p.perVote as real else x
        else 0.0
      else if totalVotes > 0.0 then p.perVote as real * votes / totalVotes else 0.0;
    if pay < MIN_VOTE_PAY then 0.0 else pay
  }

  /** Whether a share row counts as frozen for its owner's claim. */
  predicate Frozen(b: Book, owner: Name)
    requires owner in b.producers
  {
    owner !in b.shares || b.producers[owner].lastClaim + THREE_DAYS <= b.shares[owner].updated
  }

  /** The share a claim cashes in. */
  function ClaimedShare(b: Book, owner: Name, now: int): real
    requires owner in b.producers
  {
    if owner !in b.shares then 0.0
    else AdvancedShare(b.shares[owner], now, if Frozen(b, owner) then 0.0 else b.producers[owner].votes)
  }

  /** The voting tables after a claim: the share row restarts and the global share gives it up. */
  function ClaimBook(b: Book, owner: Name, revised: bool, now: int): Book
    requires owner in b.producers
  {
    var row := b.producers[owner];
    var share := ClaimedShare(b, owner, now);
    var b1 := b.(shares := b.shares[owner := Share(0.0, now)]);
    var b2 := if revised then UpdateTotalShare(b1, now, 0.0, 0.0) else b1;
    var b3 := UpdateTotalShare(b2, now, -share, if Frozen(b, owner) then row.votes else 0.0);
    b3.(producers := b3.producers[owner := row.(lastClaim := now, unpaid := 0)])
  }

  /** What one claim pays: whole tokens for blocks, a real number for votes. */
  function ClaimedVotePay(b: Book, p: Pay, owner: Name, now: int): real
    requires owner in b.producers
  {
    var total := UpdateTotalShare(b, now, 0.0, 0.0).totalShare;
    VotePay(p, ClaimedShare(b, owner, now), total, b.producers[owner].lastClaim + THREE_DAYS <= now,
            b.producers[owner].votes, b.totalVotes)
  }

  function ClaimRewards(c: Chain, auth: set<Name>, owner: Name, minted: nat): Result<Chain> {
    var signed := owner in auth;
    :- Need(signed, MissingAuthority);
    :- Need(owner in c.book.producers, ProducerNotFound);
    var row := c.book.producers[owner];
    :- Need(row.active, ProducerInactive);
    :- Need(c.now - row.lastClaim > DAY, AlreadyClaimed);
    :- Need(INR in c.token.stats, NoSymbol);
    var c1 :- FillBuckets(c, minted);
    var blockPay := BlockPay(c1.pay, row.unpaid);
    var votePay := ClaimedVotePay(c1.book, c1.pay, owner, c.now);
    var c2 := c1.(
      book := ClaimBook(c1.book, owner, c1.pay.revision > 0, c.now),
      pay := c1.pay.(perVote := Trunc(c1.pay.perVote as real - votePay), perBlock := c1.pay.perBlock - blockPay,
                     unpaid := c1.pay.unpaid - row.unpaid));
    var c3 :- SendSome(c2, BPAY, owner, blockPay);
    SendSome(c3, VPAY, owner, Trunc(votePay))
  }
}
