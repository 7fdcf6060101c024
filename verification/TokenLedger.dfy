/** Token conservation and the producer floor, for every action of the token contract. */
module TokenLedger {
  import opened Basics
  import opened Sums
  import opened Token
  import opened Chain

  const FLOOR: int := BORDER_BALANCE * 10000

  ghost function HeldColumn(t: Ledger, code: nat): map<(Name, nat), int> {
    map k | k in t.balances :: if k.1 == code then t.balances[k] else 0
  }

  /** All the tokens of one symbol that accounts hold. */
  ghost function Held(t: Ledger, code: nat): int { Sum(HeldColumn(t, code)) }

  function SupplyOf(t: Ledger, code: nat): int {
    if code in t.stats then t.stats[code].supply else 0
  }

  /** For every symbol the balances add up to the supply, which stays within its maximum. */
  ghost predicate Conserved(t: Ledger) {
    && (forall code: nat :: Held(t, code) == SupplyOf(t, code))
    && (forall k :: k in t.balances ==> t.balances[k] >= 0 && k.1 in t.stats)
    && (forall code :: code in t.stats ==> 0 <= t.stats[code].supply <= t.stats[code].maxSupply <= MAX_AMOUNT)
  }

  /** A producing account that holds the floor still holds it. */
  ghost predicate FloorKept(t: Ledger, t': Ledger, env: Surroundings) {
    forall a :: IsProducing(env, a) && BalanceOf(t, a, INR) >= FLOOR ==> BalanceOf(t', a, INR) >= FLOOR
  }

  /** No symbol disappears or changes its precision. */
  ghost predicate SymbolsKept(t: Ledger, t': Ledger) {
    forall code :: code in t.stats ==> code in t'.stats && t'.stats[code].precision == t.stats[code].precision
  }

  /** Only the balance of `owner` in `code` moves, by `amount`. */
  ghost predicate Moved(t: Ledger, t': Ledger, owner: Name, code: nat, amount: int) {
    forall o, s :: BalanceOf(t', o, s) == BalanceOf(t, o, s) + (if o == owner && s == code then amount else 0)
  }

  lemma WriteBalance(t: Ledger, t': Ledger, owner: Name, code: nat, amount: int)
    requires t'.balances == t.balances[(owner, code) := BalanceOf(t, owner, code) + amount]
    ensures Moved(t, t', owner, code, amount)
    ensures forall s: nat :: Held(t', s) == Held(t, s) + (if s == code then amount else 0)
  {
    hide Sum;
    var k := (owner, code);
    forall s: nat ensures Held(t', s) == Held(t, s) + (if s == code then amount else 0) {
      assert HeldColumn(t', s) == HeldColumn(t, s)[k := if code == s then t'.balances[k] else 0];
      SumWrite(HeldColumn(t, s), k, if code == s then t'.balances[k] else 0);
    }
  }

  lemma SubEffect(t: Ledger, env: Surroundings, owner: Name, q: Asset) returns (t': Ledger)
    requires SubBalance(t, env, owner, q).Success?
    ensures SubBalance(t, env, owner, q) == Success(t') && t'.stats == t.stats
    ensures Moved(t, t', owner, q.code, -q.amount) && BalanceOf(t', owner, q.code) >= 0
    ensures forall s: nat :: Held(t', s) == Held(t, s) - (if s == q.code then q.amount else 0)
    ensures t'.balances.Keys == t.balances.Keys && (owner, q.code) in t.balances
    ensures IsProducing(env, owner) ==> BalanceOf(t', owner, INR) >= FLOOR
  {
    hide Held;
    t' := SubBalance(t, env, owner, q).value;
    WriteBalance(t, t', owner, q.code, -q.amount);
  }

  lemma AddEffect(t: Ledger, owner: Name, q: Asset)
    ensures var t' := AddBalance(t, owner, q);
      && t'.stats == t.stats && Moved(t, t', owner, q.code, q.amount)
      && (forall s: nat :: Held(t', s) == Held(t, s) + (if s == q.code then q.amount else 0))
      && t'.balances.Keys == t.balances.Keys + {(owner, q.code)}
  {
    hide Held;
    WriteBalance(t, AddBalance(t, owner, q), owner, q.code, q.amount);
  }

  function TransferShare(o: Name, s: nat, from: Name, to: Name, q: Asset): int {
    if s != q.code then 0
    else (if o == to then q.amount else 0) - (if o == from then q.amount else 0)
  }

  /** A transfer moves the quantity between two accounts and nothing else. */
  lemma TransferEffect(t: Ledger, env: Surroundings, auth: set<Name>, from: Name, to: Name, q: Asset) returns (t': Ledger)
    requires Transfer(t, env, auth, from, to, q).Success?
    ensures Transfer(t, env, auth, from, to, q) == Success(t')
    ensures t'.stats == t.stats && from != to && from in auth && q.amount > 0 && to != CREATOR
    ensures forall o, s :: BalanceOf(t', o, s) == BalanceOf(t, o, s) + TransferShare(o, s, from, to, q)
    ensures Conserved(t) ==> Conserved(t')
    ensures FloorKept(t, t', env)
    ensures IsProducing(env, from) ==> BalanceOf(t', from, INR) >= FLOOR
  {
    hide Held, SubBalance, AddBalance;
    var mid := SubEffect(t, env, from, q);
    t' := AddBalance(mid, to, q);
    AddEffect(mid, to, q);
    if Conserved(t) {
      forall s: nat ensures Held(t', s) == SupplyOf(t', s) {
        assert Held(t, s) == SupplyOf(t, s);
      }
      forall k | k in t'.balances ensures t'.balances[k] >= 0 && k.1 in t'.stats {
        assert t'.balances[k] == BalanceOf(t', k.0, k.1);
        assert k in t.balances ==> t.balances[k] == BalanceOf(t, k.0, k.1);
      }
    }
  }

  lemma IssueEffect(t: Ledger, auth: set<Name>, to: Name, q: Asset) returns (t': Ledger)
    requires Issue(t, auth, to, q).Success?
    ensures Issue(t, auth, to, q) == Success(t') && q.amount > 0 && to in auth && SymbolsKept(t, t')
    ensures Moved(t, t', to, q.code, q.amount)
    ensures forall s: nat :: SupplyOf(t', s) == SupplyOf(t, s) + (if s == q.code then q.amount else 0)
    ensures Conserved(t) ==> Conserved(t')
  {
    hide Held, AddBalance;
    var st := t.stats[q.code];
    var mid := t.(stats := t.stats[q.code := st.(supply := st.supply + q.amount)]);
    t' := AddBalance(mid, to, q);
    AddEffect(mid, to, q);
    SameBalances(t, mid);
    if Conserved(t) {
      forall s: nat ensures Held(t', s) == SupplyOf(t', s) {
        assert Held(t, s) == SupplyOf(t, s);
      }
      forall k | k in t'.balances ensures t'.balances[k] >= 0 && k.1 in t'.stats {
        assert t'.balances[k] == BalanceOf(t', k.0, k.1);
        assert k in t.balances ==> t.balances[k] == BalanceOf(t, k.0, k.1);
      }
    }
  }

  lemma SameBalances(t: Ledger, t': Ledger)
    requires t'.balances == t.balances
    ensures forall s: nat :: Held(t', s) == Held(t, s)
    ensures forall o, s :: BalanceOf(t', o, s) == BalanceOf(t, o, s)
  {
    forall s: nat ensures Held(t', s) == Held(t, s) {
      assert HeldColumn(t', s) == HeldColumn(t, s);
    }
  }

  /** Retiring never takes the supply below zero, because the issuer holds what it retires. */
  lemma RetireEffect(t: Ledger, env: Surroundings, auth: set<Name>, q: Asset) returns (t': Ledger)
    requires Retire(t, env, auth, q).Success?
    ensures Retire(t, env, auth, q) == Success(t') && q.code in t.stats && t.stats[q.code].issuer in auth && q.amount > 0
    ensures Moved(t, t', t.stats[q.code].issuer, q.code, -q.amount) && SymbolsKept(t, t')
    ensures Conserved(t) ==> Conserved(t')
    ensures FloorKept(t, t', env)
  {
    hide Held, SubBalance;
    var st := t.stats[q.code];
    var mid := t.(stats := t.stats[q.code := st.(supply := st.supply - q.amount)]);
    t' := SubEffect(mid, env, st.issuer, q);
    SameBalances(t, mid);
    if Conserved(t) {
      forall s: nat ensures Held(t', s) == SupplyOf(t', s) {
        assert Held(t, s) == SupplyOf(t, s);
      }
      forall k | k in t'.balances ensures t'.balances[k] >= 0 && k.1 in t'.stats {
        assert t'.balances[k] == BalanceOf(t', k.0, k.1);
        assert t.balances[k] == BalanceOf(t, k.0, k.1);
      }
      HeldNonNegative(t', q.code);
    }
  }

  lemma HeldNonNegative(t: Ledger, code: nat)
    requires forall k :: k in t.balances ==> t.balances[k] >= 0
    ensures Held(t, code) >= 0
    ensures forall o: Name :: BalanceOf(t, o, code) <= Held(t, code)
  {
    hide Sum;
    SumNonNegative(HeldColumn(t, code));
    forall o: Name ensures BalanceOf(t, o, code) <= Held(t, code) {
      if (o, code) in t.balances {
        assert HeldColumn(t, code)[(o, code)] == t.balances[(o, code)];
      }
    }
  }

  /** Creating a symbol and opening or closing an empty row move no tokens. */
  lemma BookkeepingEffect(t: Ledger, r: Result<Ledger>, env: Surroundings, auth: set<Name>, self: Name, owner: Name,
                          max: Asset, code: nat, precision: nat, payer: Name)
    requires r in {Create(t, auth, self, owner, max), Open(t, env, auth, owner, code, precision, payer), Close(t, auth, owner, code)}
    requires r.Success?
    ensures Conserved(t) ==> Conserved(r.value)
    ensures SymbolsKept(t, r.value)
    ensures forall o, s :: BalanceOf(r.value, o, s) == BalanceOf(t, o, s)
  {
    hide Held;
    var t' := r.value;
    if t'.balances == t.balances {
      SameBalances(t, t');
    } else if (owner, code) in t'.balances {
      WriteBalance(t, t', owner, code, 0);
    } else {
      EraseEmpty(t, t', owner, code);
    }
    if Conserved(t) {
      forall s: nat ensures Held(t', s) == SupplyOf(t', s) {
        assert Held(t, s) == SupplyOf(t, s);
      }
    }
  }

  lemma EraseEmpty(t: Ledger, t': Ledger, owner: Name, code: nat)
    requires (owner, code) in t.balances && t.balances[(owner, code)] == 0
    requires t'.balances == t.balances - {(owner, code)}
    ensures forall s: nat :: Held(t', s) == Held(t, s)
    ensures forall o, s :: BalanceOf(t', o, s) == BalanceOf(t, o, s)
  {
    hide Sum;
    forall s: nat ensures Held(t', s) == Held(t, s) {
      assert HeldColumn(t', s) == HeldColumn(t, s) - {(owner, code)};
      SumErase(HeldColumn(t, s), (owner, code));
    }
  }
}
