/** The multisig contract as it keeps its tables, updated in place (inery.msig.cpp). */
module MultisigTables {
  import opened Basics
  import opened Multisig

  /** The search from the front finds the first approval. */
  lemma FoundFirst(xs: seq<Approval>, level: Level, i: nat)
    requires i <= |xs| && (i < |xs| ==> xs[i].level == level)
    requires forall j :: 0 <= j < i ==> xs[j].level != level
    ensures i == Find(xs, level)
  {
  }

  class MultisigContract {
    var now: nat
    var proposals: map<Key, Transaction>
    var approvals: map<Key, Approvals>
    var invalidations: map<Name, nat>
    var sent: seq<Sent>

    function View(): State
      reads this
    {
      State(now, proposals, approvals, invalidations, sent)
    }

    constructor ()
      ensures View() == Run([])
    {
      now, proposals, approvals, invalidations, sent := 0, map[], map[], map[], [];
    }

    method Restore(s: State)
      modifies this
      ensures View() == s
    {
      now, proposals, approvals, invalidations, sent := s.now, s.proposals, s.approvals, s.invalidations, s.sent;
    }

    method Search(xs: seq<Approval>, level: Level) returns (i: nat)
      ensures i == Find(xs, level)
    {
      i := 0;
      while i < |xs| && xs[i].level != level
        invariant i <= |xs|
        invariant forall j :: 0 <= j < i ==> xs[j].level != level
      {
        i := i + 1;
      }
      FoundFirst(xs, level, i);
    }

    method ProposeTrx(auth: set<Level>, proposer: Name, name: Name, levels: seq<Level>, trx: Transaction, accepts: Authority)
      returns (st: Outcome)
      modifies this
      ensures Agrees(st, View(), Perform(old(View()), Propose(proposer, name, levels, trx), auth, accepts))
    {
      var signed := Signed(auth, proposer);
      :- Check(signed, MissingAuthority);
      :- Check(trx.expiration >= Unix(now), Expired);
      var k := (proposer, name);
      :- Check(k !in proposals, ProposalExists);
      :- Check(accepts(trx, levels), Unauthorized);
      proposals := proposals[k := trx];
      :- Check(k !in approvals, ProposalExists);
      var requested: seq<Approval> := [];
      for i := 0 to |levels|
        invariant requested == Requested(levels)[..i]
      {
        requested := requested + [Approval(levels[i], 0)];
      }
      assert Requested(levels)[..|levels|] == Requested(levels);
      approvals := approvals[k := Approvals(requested, [])];
      return Pass;
    }

    method ApproveTrx(auth: set<Level>, proposer: Name, name: Name, level: Level, hash: Hash, accepts: Authority)
      returns (st: Outcome)
      modifies this
      ensures Agrees(st, View(), Perform(old(View()), Approve(proposer, name, level, hash), auth, accepts))
    {
      hide Find;
      var k := (proposer, name);
      :- Check(level in auth, MissingAuthority);
      if hash.HashOf? {
        :- Check(k in proposals, ProposalMissing);
        :- Check(proposals[k].digest == hash.digest, HashMismatch);
      }
      :- Check(k in approvals, ProposalMissing);
      var row := approvals[k];
      var i := Search(row.requested, level);
      :- Check(i < |row.requested|, NotRequested);
      row := row.(provided := row.provided + [Approval(level, now)]);
      row := row.(requested := row.requested[..i] + row.requested[i + 1..]);
      approvals := approvals[k := row];
      return Pass;
    }

    method UnapproveTrx(auth: set<Level>, proposer: Name, name: Name, level: Level, accepts: Authority) returns (st: Outcome)
      modifies this
      ensures Agrees(st, View(), Perform(old(View()), Unapprove(proposer, name, level), auth, accepts))
    {
      hide Find;
      var k := (proposer, name);
      :- Check(level in auth, MissingAuthority);
      :- Check(k in approvals, ProposalMissing);
      var row := approvals[k];
      var i := Search(row.provided, level);
      :- Check(i < |row.provided|, NotProvided);
      row := row.(requested := row.requested + [Approval(level, now)]);
      row := row.(provided := row.provided[..i] + row.provided[i + 1..]);
      approvals := approvals[k := row];
      return Pass;
    }

    method CancelTrx(auth: set<Level>, proposer: Name, name: Name, canceler: Name, accepts: Authority) returns (st: Outcome)
      modifies this
      ensures Agrees(st, View(), Perform(old(View()), Cancel(proposer, name, canceler), auth, accepts))
    {
      var k := (proposer, name);
      :- Check(Signed(auth, canceler), MissingAuthority);
      :- Check(k in proposals, ProposalMissing);
      if canceler != proposer {
        :- Check(proposals[k].expiration < Unix(now), NotYetExpired);
      }
      proposals := proposals - {k};
      :- Check(k in approvals, ProposalMissing);
      approvals := approvals - {k};
      return Pass;
    }

    method CollectStanding(provided: seq<Approval>) returns (levels: seq<Level>)
      ensures levels == Standing(provided, invalidations)
    {
      levels := [];
      for i := 0 to |provided|
        invariant levels == Standing(provided[..i], invalidations)
      {
        assert provided[..i + 1][..i] == provided[..i];
        var actor := provided[i].level.actor;
        if actor !in invalidations || invalidations[actor] < provided[i].time {
          levels := levels + [provided[i].level];
        }
      }
      assert provided[..|provided|] == provided;
    }

    method ExecTrx(auth: set<Level>, proposer: Name, name: Name, executer: Name, accepts: Authority) returns (st: Outcome)
      modifies this
      ensures Agrees(st, View(), Perform(old(View()), Exec(proposer, name, executer), auth, accepts))
    {
      hide Standing;
      var k := (proposer, name);
      :- Check(Signed(auth, executer), MissingAuthority);
      :- Check(k in proposals, ProposalMissing);
      var trx := proposals[k];
      :- Check(trx.expiration >= Unix(now), Expired);
      :- Check(k in approvals, ProposalMissing);
      var levels := CollectStanding(approvals[k].provided);
      approvals := approvals - {k};
      :- Check(accepts(trx, levels), Unauthorized);
      sent := sent + [Sent(k, trx, levels)];
      proposals := proposals - {k};
      return Pass;
    }

    method InvalidateAll(auth: set<Level>, account: Name, accepts: Authority) returns (st: Outcome)
      modifies this
      ensures Agrees(st, View(), Perform(old(View()), Invalidate(account), auth, accepts))
    {
      var signed := Signed(auth, account);
      :- Check(signed, MissingAuthority);
      invalidations := invalidations[account := now];
      return Pass;
    }

    method Apply(a: Action, auth: set<Level>, accepts: Authority) returns (st: Outcome)
      modifies this
      ensures Agrees(st, View(), Perform(old(View()), a, auth, accepts))
    {
      hide Perform;
      match a
      case Propose(proposer, name, levels, trx) => st := ProposeTrx(auth, proposer, name, levels, trx, accepts);
      case Approve(proposer, name, level, hash) => st := ApproveTrx(auth, proposer, name, level, hash, accepts);
      case Unapprove(proposer, name, level) => st := UnapproveTrx(auth, proposer, name, level, accepts);
      case Cancel(proposer, name, canceler) => st := CancelTrx(auth, proposer, name, canceler, accepts);
      case Exec(proposer, name, executer) => st := ExecTrx(auth, proposer, name, executer, accepts);
      case Invalidate(account) => st := InvalidateAll(auth, account, accepts);
    }

    /** One transaction: it goes through as its action says, or leaves nothing but the passing of time. */
    method Execute(e: Event) returns (st: Outcome)
      modifies this
      ensures View() == Step(old(View()), e)
      ensures st == match Try(old(View()), e) case Success(_) => Pass case Failure(error) => Fail(error)
    {
      hide Perform;
      now := now + e.elapsed;
      var snapshot := View();
      st := Apply(e.action, e.auth, e.accepts);
      if st.Fail? {
        Restore(snapshot);
      }
    }
  }
}
