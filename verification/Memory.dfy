/** The market for memory: exchange_state.cpp, and the actions that trade on it or grow it. */
module Memory {
  import opened Basics
  import opened Chain
  import opened Staking

  const MEBIBYTE: int := 1024 * 1024
  const UNREALISTIC: int := 1024 * 1024 * 1024 * 1024 * 1024
  const WORD: int := 0x1_0000_0000
  const BLOCK_EPOCH_MS: int := 946_684_800_000

  /** `get_bancor_output`: the memory, in ten-thousandths of a byte, that tokens pay for. */
  function TokensToBytes(amount: int): int { Max(amount * 1024 * 1024, 0) }

  /** `get_bancor_input`: the whole tokens a number of bytes is worth. */
  function BytesToTokens(bytes: int): int { Max(bytes / (1024 * 1024), 0) }

  /** `direct_convert` from tokens to memory, and back. */
  function ConvertTokens(m: Market, amount: int): (Market, int) {
    var out := TokensToBytes(amount);
    (m.(quote := m.quote + amount, base := m.base - out / 10000), out)
  }

  function ConvertBytes(m: Market, bytes: int): (Market, int) {
    var out := BytesToTokens(bytes);
    (m.(base := m.base + bytes, quote := m.quote - out * 10000), out)
  }

  /** The block number of the current time: half seconds since the block epoch. */
  function Slot(now: int): nat {
    if now / 1000 < BLOCK_EPOCH_MS then 0 else (now / 1000 - BLOCK_EPOCH_MS) / 500
  }

  /** `update_mem_supply`; the product of slots and rate wraps like the unsigned word it is. */
  function GrowSupply(m: Market, now: int): Market {
    var slot := Slot(now);
    if slot <= m.grownAt then m
    else
      var grown := (slot - m.grownAt) * m.perBlock % WORD;
      m.(maxSize := m.maxSize + grown, base := m.base + grown, grownAt := slot)
  }

  function SetMem(c: Chain, auth: set<Name>, size: int, reserved: int): Result<Chain> {
    var signed := SYSTEM in auth;
    :- Need(signed, MissingAuthority);
    :- Need(c.market.maxSize < size, MemOnlyGrows);
    :- Need(size < UNREALISTIC, MemUnrealistic);
    :- Need(size > reserved, BelowReserved);
    Success(c.(market := c.market.(base := c.market.base + size - c.market.maxSize, maxSize := size)))
  }

  function SetMemRate(c: Chain, auth: set<Name>, perBlock: nat): Result<Chain> {
    var signed := SYSTEM in auth;
    :- Need(signed, MissingAuthority);
    Success(c.(market := GrowSupply(c.market, c.now).(perBlock := perBlock % 0x1_0000)))
  }

  /** An account's memory limit follows its row unless it is managed. */
  function FollowMemory(c: Chain, account: Name, mem: int): Result<Chain> {
    if FlagsOf(c.book, account).mem then Success(c)
    else
      :- Need(account in c.limits, NoSuchAccount);
      Success(c.(limits := c.limits[account := c.limits[account].(mem := mem + MEM_GIFT_BYTES)]))
  }

  function WriteMemory(c: Chain, account: Name, mem: int): Chain {
    c.(stakes := c.stakes.(resources := c.stakes.resources[account := ResourcesOf(c.stakes.resources, account).(mem := mem)]))
  }

  function BuyResources(c: Chain, auth: set<Name>, payer: Name, receiver: Name, amount: int, growth: Growth): Result<Chain> {
    var signed := payer in auth;
    :- Need(signed, MissingAuthority);
    :- Need(amount > 0, NotPositive);
    var paid :- Send(c.(market := GrowSupply(c.market, c.now)), payer, MEM, amount);
    var (m, out) := ConvertTokens(paid.market, amount);
    var bytes := out / 10000;
    :- Need(m.base > bytes, NoMemoryLeft);
    :- Need(bytes > 0, NotPositive);
    var mem := ResourcesOf(paid.stakes.resources, receiver).mem + bytes;
    var bought := WriteMemory(paid.(market := m.(memStake := m.memStake + amount)), receiver, mem);
    var staked := bytes * 10000 / (1024 * 1024);
    var c' :- DelegateBw(bought, auth, payer, receiver, staked, staked, false, growth);
    FollowMemory(c', receiver, mem)
  }

  function SellRes(c: Chain, auth: set<Name>, account: Name, bytes: int, growth: Growth): Result<Chain> {
    var signed := account in auth;
    :- Need(signed, MissingAuthority);
    :- Need(bytes > 0, NotPositive);
    :- Need(account in c.book.producers, ProducerNotFound);
    :- Need(account in c.stakes.resources, NoResourceRow);
    var held := c.stakes.resources[account].mem;
    :- Need(c.book.producers[account].isProducer ==> held - bytes > MEBIBYTE, FreeResources);
    :- Need(held >= bytes, InsufficientQuota);
    var (m, out) := ConvertBytes(GrowSupply(c.market, c.now), bytes);
    var tokens := out * 10000;
    :- Need(tokens > 1, SaleTooSmall);
    :- Need(m.memStake - tokens >= 0, MemStakeNegative);
    var sold := WriteMemory(c.(market := m.(memStake := m.memStake - tokens)), account, held - bytes);
    var c1 :- UndelegateBw(sold, auth, account, account, tokens, tokens, growth);
    var c2 :- FollowMemory(c1, account, held - bytes);
    Send(c2, MEM, account, tokens)
  }

  function PriceOf(bytes: nat): int { BytesToTokens(bytes) * 10000 }

  function BuyMemBytes(c: Chain, auth: set<Name>, payer: Name, receiver: Name, bytes: int, growth: Growth): Result<Chain> {
    var price := PriceOf(bytes % WORD);
    var c' :- BuyResources(c, auth, payer, receiver, price, growth);
    DelegateBw(c', auth, payer, receiver, price, price, false, growth)
  }
}
