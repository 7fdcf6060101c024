/** The multisig contract: proposals, the approvals they collect, and what execution submits. */
module Multisig {
  import opened Basics

  datatype Level = Level(actor: Name, permission: Name)

  /** A packed transaction: its hash and the second at which it expires. */
  datatype Transaction = Transaction(digest: nat, expiration: int)

  datatype Approval = Approval(level: Level, time: nat)

  datatype Approvals = Approvals(requested: seq<Approval>, provided: seq<Approval>)

  /** A proposal is known by its proposer and its name. */
  type Key = (Name, Name)

  /** A transaction handed to the chain, with the approvals it was checked against. */
  datatype Sent = Sent(key: Key, trx: Transaction, levels: seq<Level>)

  datatype State = State(now: nat, proposals: map<Key, Transaction>, approvals: map<Key, Approvals>,
                         invalidations: map<Name, nat>, sent: seq<Sent>)

  datatype Hash = NoHash | HashOf(digest: nat)

  datatype Action =
    | Propose(proposer: Name, name: Name, levels: seq<Level>, trx: Transaction)
    | Approve(proposer: Name, name: Name, level: Level, hash: Hash)
    | Unapprove(proposer: Name, name: Name, level: Level)
    | Cancel(proposer: Name, name: Name, canceler: Name)
    | Exec(proposer: Name, name: Name, executer: Name)
    | Invalidate(account: Name)

  /** Whether the chain would accept a transaction with these permissions. */
  type Authority = (Transaction, seq<Level>) -> bool

  datatype Event = Event(action: Action, auth: set<Level>, elapsed: nat, accepts: Authority)

  predicate Signed(auth: set<Level>, account: Name) { exists l :: l in auth && l.actor == account }

  function Unix(now: nat): int { now / SECOND }

  function Requested(levels: seq<Level>): seq<Approval> {
    seq(|levels|, i requires 0 <= i < |levels| => Approval(levels[i], 0))
  }

  /** The position of the first approval of a level, or the end. */
  function Find(xs: seq<Approval>, level: Level): (i: nat)
    ensures i <= |xs| && (i < |xs| ==> xs[i].level == level)
    ensures forall j :: 0 <= j < i ==> xs[j].level != level
  {
    if xs == [] || xs[0].level == level then 0 else 1 + Find(xs[1..], level)
  }

  function Without(xs: seq<Approval>, i: nat): seq<Approval>
    requires i < |xs|
  {
    xs[..i] + xs[i + 1..]
  }

  predicate Stands(a: Approval, invalidations: map<Name, nat>) {
    a.level.actor in invalidations ==> invalidations[a.level.actor] < a.time
  }

  /** The approvals that count: given after the last time their actor invalidated its approvals. */
  function Standing(provided: seq<Approval>, invalidations: map<Name, nat>): seq<Level> {
    if provided == [] then []
    else
      var n := |provided| - 1;
      Standing(provided[..n], invalidations) + if Stands(provided[n], invalidations) then [provided[n].level] else []
  }

  function Perform(s: State, a: Action, auth: set<Level>, accepts: Authority): Result<State> {
    match a
    case Propose(proposer, name, levels, trx) =>
      :- Need(Signed(auth, proposer), MissingAuthority);
      :- Need(trx.expiration >= Unix(s.now), Expired);
      :- Need((proposer, name) !in s.proposals, ProposalExists);
      :- Need(accepts(trx, levels), Unauthorized);
      :- Need((proposer, name) !in s.approvals, ProposalExists);
      Success(s.(proposals := s.proposals[(proposer, name) := trx],
                 approvals := s.approvals[(proposer, name) := Approvals(Requested(levels), [])]))
    case Approve(proposer, name, level, hash) =>
      var k := (proposer, name);
      :- Need(level in auth, MissingAuthority);
      :- Need(hash.HashOf? ==> k in s.proposals, ProposalMissing);
      :- Need(hash.HashOf? ==> s.proposals[k].digest == hash.digest, HashMismatch);
      :- Need(k in s.approvals, ProposalMissing);
      var row := s.approvals[k];
      var i := Find(row.requested, level);
      :- Need(i < |row.requested|, NotRequested);
      Success(s.(approvals := s.approvals[k := Approvals(Without(row.requested, i), row.provided + [Approval(level, s.now)])]))
    case Unapprove(proposer, name, level) =>
      var k := (proposer, name);
      :- Need(level in auth, MissingAuthority);
      :- Need(k in s.approvals, ProposalMissing);
      var row := s.approvals[k];
      var i := Find(row.provided, level);
      :- Need(i < |row.provided|, NotProvided);
      Success(s.(approvals := s.approvals[k := Approvals(row.requested + [Approval(level, s.now)], Without(row.provided, i))]))
    case Cancel(proposer, name, canceler) =>
      var k := (proposer, name);
      :- Need(Signed(auth, canceler), MissingAuthority);
      :- Need(k in s.proposals, ProposalMissing);
      :- Need(canceler != proposer ==> s.proposals[k].expiration < Unix(s.now), NotYetExpired);
      :- Need(k in s.approvals, ProposalMissing);
      Success(s.(proposals := s.proposals - {k}, approvals := s.approvals - {k}))
    case Exec(proposer, name, executer) =>
      var k := (proposer, name);
      :- Need(Signed(auth, executer), MissingAuthority);
      :- Need(k in s.proposals, ProposalMissing);
      :- Need(s.proposals[k].expiration >= Unix(s.now), Expired);
      :- Need(k in s.approvals, ProposalMissing);
      var levels := Standing(s.approvals[k].provided, s.invalidations);
      :- Need(accepts(s.proposals[k], levels), Unauthorized);
      Success(s.(proposals := s.proposals - {k}, approvals := s.approvals - {k},
                 sent := s.sent + [Sent(k, s.proposals[k], levels)]))
    case Invalidate(account) =>
      :- Need(Signed(auth, account), MissingAuthority);
      Success(s.(invalidations := s.invalidations[account := s.now]))
  }

  function Later(s: State, elapsed: nat): State { s.(now := s.now + elapsed) }

  function Try(s: State, e: Event): Result<State> {
    Perform(Later(s, e.elapsed), e.action, e.auth, e.accepts)
  }

  function Step(s: State, e: Event): State {
    var r := Try(s, e);
    if r.Success? then r.value else Later(s, e.elapsed)
  }

  /** A run from the empty tables. */
  function Run(es: seq<Event>): State {
    if |es| == 0 then State(0, map[], map[], map[], []) else Step(Run(es[..|es| - 1]), es[|es| - 1])
  }

  /** The event at the end of a run went through. */
  predicate Passes(es: seq<Event>)
    requires |es| > 0
  {
    Try(Run(es[..|es| - 1]), es[|es| - 1]).Success?
  }
}
