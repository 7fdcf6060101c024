/** The token contract as it keeps its tables, updated in place (inery.token.cpp). */
module TokenTables {
  import opened Basics
  import opened Token

  class TokenContract {
    var stats: map<nat, Stat>
    var balances: map<(Name, nat), int>

    function View(): Ledger
      reads this
    {
      Ledger(stats, balances)
    }

    constructor ()
      ensures View() == Ledger(map[], map[])
    {
      stats, balances := map[], map[];
    }

    method Restore(t: Ledger)
      modifies this
      ensures View() == t
    {
      stats, balances := t.stats, t.balances;
    }

    method AddTo(owner: Name, q: Asset)
      modifies `balances
      ensures View() == AddBalance(old(View()), owner, q)
    {
      var k := (owner, q.code);
      if k !in balances {
        balances := balances[k := q.amount];
      } else {
        balances := balances[k := balances[k] + q.amount];
      }
    }

    /** The floor is checked after the balance has been written; the transaction is then aborted. */
    method SubFrom(env: Surroundings, owner: Name, q: Asset) returns (st: Outcome)
      modifies `balances
      ensures Agrees(st, View(), SubBalance(old(View()), env, owner, q))
    {
      var k := (owner, q.code);
      :- Check(k in balances, NoBalance);
      :- Check(balances[k] >= q.amount, Overdrawn);
      balances := balances[k := balances[k] - q.amount];
      :- Check((owner, INR) in balances, NoBalance);
      if IsProducing(env, owner) {
        :- Check(balances[(owner, INR)] / 10000 >= BORDER_BALANCE, ProducerFloor);
      }
      return Pass;
    }

    method CreateSymbol(auth: set<Name>, self: Name, issuer: Name, max: Asset) returns (st: Outcome)
      modifies this
      ensures Agrees(st, View(), Create(old(View()), auth, self, issuer, max))
    {
      var signed := self in auth;
      :- Check(signed, MissingAuthority);
      :- Check(ValidAsset(max), InvalidQuantity);
      :- Check(max.amount > 0, InvalidQuantity);
      :- Check(max.code !in stats, SymbolExists);
      stats := stats[max.code := Stat(max.precision, 0, max.amount, issuer)];
      return Pass;
    }

    method IssueTo(auth: set<Name>, to: Name, q: Asset) returns (st: Outcome)
      modifies this
      ensures Agrees(st, View(), Issue(old(View()), auth, to, q))
    {
      var known := q.code in stats;
      :- Check(known, NoSymbol);
      var row := stats[q.code];
      :- Check(to == row.issuer || to == CREATOR, NotIssuer);
      var receiver := if to == row.issuer then row.issuer else CREATOR;
      :- Check(receiver in auth, MissingAuthority);
      :- Check(ValidAsset(q) && q.amount > 0, InvalidQuantity);
      :- Check(q.precision == row.precision, InvalidQuantity);
      :- Check(q.amount <= row.maxSupply - row.supply, ExceedsSupply);
      stats := stats[q.code := row.(supply := row.supply + q.amount)];
      AddTo(receiver, q);
      return Pass;
    }

    method RetireFrom(env: Surroundings, auth: set<Name>, q: Asset) returns (st: Outcome)
      modifies this
      ensures Agrees(st, View(), Retire(old(View()), env, auth, q))
    {
      hide SubBalance;
      :- Check(q.code in stats, NoSymbol);
      var row := stats[q.code];
      :- Check(row.issuer in auth, MissingAuthority);
      :- Check(ValidAsset(q) && q.amount > 0 && q.precision == row.precision, InvalidQuantity);
      stats := stats[q.code := row.(supply := row.supply - q.amount)];
      st := SubFrom(env, row.issuer, q);
    }

    method TransferFrom(env: Surroundings, auth: set<Name>, from: Name, to: Name, q: Asset) returns (st: Outcome)
      modifies this
      ensures Agrees(st, View(), Transfer(old(View()), env, auth, from, to, q))
    {
      hide SubBalance, AddBalance;
      :- Check(from != to, SendToSelf);
      :- Check(from in auth, MissingAuthority);
      :- Check(to in env.accounts, NoSuchAccount);
      :- Check(to != CREATOR, ToCreator);
      :- Check(q.code in stats, NoSymbol);
      :- Check(ValidAsset(q) && q.amount > 0, InvalidQuantity);
      :- Check(q.precision == stats[q.code].precision, InvalidQuantity);
      :- SubFrom(env, from, q);
      AddTo(to, q);
      return Pass;
    }

    method OpenRow(env: Surroundings, auth: set<Name>, owner: Name, code: nat, precision: nat, payer: Name) returns (st: Outcome)
      modifies this
      ensures Agrees(st, View(), Open(old(View()), env, auth, owner, code, precision, payer))
    {
      var signed := payer in auth;
      :- Check(signed, MissingAuthority);
      :- Check(owner in env.accounts, NoSuchAccount);
      :- Check(code in stats, NoSymbol);
      :- Check(stats[code].precision == precision, InvalidQuantity);
      if (owner, code) !in balances {
        balances := balances[(owner, code) := 0];
      }
      return Pass;
    }

    method CloseRow(auth: set<Name>, owner: Name, code: nat) returns (st: Outcome)
      modifies this
      ensures Agrees(st, View(), Close(old(View()), auth, owner, code))
    {
      var signed := owner in auth;
      :- Check(signed, MissingAuthority);
      :- Check((owner, code) in balances, NoBalance);
      :- Check(balances[(owner, code)] == 0, NotEmpty);
      balances := balances - {(owner, code)};
      return Pass;
    }
  }
}
