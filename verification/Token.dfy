/** The token contract's tables and actions. */
module Token {
  import opened Basics

  /** The raw value of the symbol code "INR", which the producer floor is fixed to. */
  const INR: nat := 0x524E49
  const INR_PRECISION: nat := 4
  const MAX_AMOUNT: int := 0x3FFF_FFFF_FFFF_FFFF      // 2^62 - 1
  const BORDER_BALANCE: int := 50000
  const CREATOR: Name := 0x45D4_6CA8_C840_0000        // "createacc"

  datatype Asset = Asset(amount: int, code: nat, precision: nat)

  function Inr(amount: int): Asset { Asset(amount, INR, INR_PRECISION) }

  predicate ValidAsset(q: Asset) { -MAX_AMOUNT <= q.amount <= MAX_AMOUNT }

  datatype Stat = Stat(precision: nat, supply: int, maxSupply: int, issuer: Name)

  datatype Ledger = Ledger(stats: map<nat, Stat>, balances: map<(Name, nat), int>)

  /** Which accounts exist, and which of them the system contract marks as active producers. */
  datatype Surroundings = Surroundings(accounts: set<Name>, producing: map<Name, bool>)

  function IsProducing(env: Surroundings, owner: Name): bool {
    owner in env.producing && env.producing[owner]
  }

  function AddBalance(t: Ledger, owner: Name, q: Asset): Ledger {
    var k := (owner, q.code);
    t.(balances := t.balances[k := (if k in t.balances then t.balances[k] else 0) + q.amount])
  }

  /** Takes `q` from `owner`; a producing account must keep 50000 whole INR whatever the token is. */
  function SubBalance(t: Ledger, env: Surroundings, owner: Name, q: Asset): Result<Ledger> {
    var k := (owner, q.code);
    :- Need(k in t.balances, NoBalance);
    :- Need(t.balances[k] >= q.amount, Overdrawn);
    var t' := t.(balances := t.balances[k := t.balances[k] - q.amount]);
    :- Need((owner, INR) in t'.balances, NoBalance);
    :- Need(IsProducing(env, owner) ==> t'.balances[(owner, INR)] / 10000 >= BORDER_BALANCE, ProducerFloor);
    Success(t')
  }

  function Create(t: Ledger, auth: set<Name>, self: Name, issuer: Name, max: Asset): Result<Ledger> {
    var signed := self in auth;
    :- Need(signed, MissingAuthority);
    :- Need(ValidAsset(max), InvalidQuantity);
    :- Need(max.amount > 0, InvalidQuantity);
    :- Need(max.code !in t.stats, SymbolExists);
    Success(t.(stats := t.stats[max.code := Stat(max.precision, 0, max.amount, issuer)]))
  }

  /** Issues to the issuer, or to the account that creates new accounts. */
  function Issue(t: Ledger, auth: set<Name>, to: Name, q: Asset): Result<Ledger> {
    var known := q.code in t.stats;
    :- Need(known, NoSymbol);
    var st := t.stats[q.code];
    :- Need(to == st.issuer || to == CREATOR, NotIssuer);
    :- Need((if to == st.issuer then st.issuer else CREATOR) in auth, MissingAuthority);
    :- Need(ValidAsset(q) && q.amount > 0 && q.precision == st.precision, InvalidQuantity);
    :- Need(q.amount <= st.maxSupply - st.supply, ExceedsSupply);
    Success(AddBalance(t.(stats := t.stats[q.code := st.(supply := st.supply + q.amount)]), to, q))
  }

  function Retire(t: Ledger, env: Surroundings, auth: set<Name>, q: Asset): Result<Ledger> {
    var known := q.code in t.stats;
    :- Need(known, NoSymbol);
    var st := t.stats[q.code];
    :- Need(st.issuer in auth, MissingAuthority);
    :- Need(ValidAsset(q) && q.amount > 0 && q.precision == st.precision, InvalidQuantity);
    SubBalance(t.(stats := t.stats[q.code := st.(supply := st.supply - q.amount)]), env, st.issuer, q)
  }

  function Transfer(t: Ledger, env: Surroundings, auth: set<Name>, from: Name, to: Name, q: Asset): Result<Ledger> {
    var distinct := from != to;
    :- Need(distinct, SendToSelf);
    :- Need(from in auth, MissingAuthority);
    :- Need(to in env.accounts, NoSuchAccount);
    :- Need(to != CREATOR, ToCreator);
    :- Need(q.code in t.stats, NoSymbol);
    :- Need(ValidAsset(q) && q.amount > 0 && q.precision == t.stats[q.code].precision, InvalidQuantity);
    var t' :- SubBalance(t, env, from, q);
    Success(AddBalance(t', to, q))
  }

  function Open(t: Ledger, env: Surroundings, auth: set<Name>, owner: Name, code: nat, precision: nat, payer: Name): Result<Ledger> {
    var signed := payer in auth;
    :- Need(signed, MissingAuthority);
    :- Need(owner in env.accounts, NoSuchAccount);
    :- Need(code in t.stats, NoSymbol);
    :- Need(t.stats[code].precision == precision, InvalidQuantity);
    if (owner, code) in t.balances then Success(t)
    else Success(t.(balances := t.balances[(owner, code) := 0]))
  }

  function Close(t: Ledger, auth: set<Name>, owner: Name, code: nat): Result<Ledger> {
    var signed := owner in auth;
    :- Need(signed, MissingAuthority);
    :- Need((owner, code) in t.balances, NoBalance);
    :- Need(t.balances[(owner, code)] == 0, NotEmpty);
    Success(t.(balances := t.balances - {(owner, code)}))
  }
}
