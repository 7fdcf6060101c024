/** What the multisig tables mean, read off the run that produced them: they remember exactly who
    has approved what, and execution submits exactly the approvals that still stand. */
module MultisigTrace {
  import opened Basics
  import opened Multisig

  function KeyOf(a: Action): Key
    requires !a.Invalidate?
  {
    (a.proposer, a.name)
  }

  /** The last event went through and is about this proposal. */
  predicate Concerns(es: seq<Event>, k: Key) {
    |es| > 0 && Passes(es) && !es[|es| - 1].action.Invalidate? && KeyOf(es[|es| - 1].action) == k
  }

  function Init(es: seq<Event>): seq<Event>
    requires |es| > 0
  {
    es[..|es| - 1]
  }

  function Last(es: seq<Event>): Action
    requires |es| > 0
  {
    es[|es| - 1].action
  }

  // ---------- the run, read without any table ----------

  /** The levels and the transaction of the latest proposal under this name. */
  function Asked(es: seq<Event>, k: Key): seq<Level> {
    if |es| == 0 then [] else if Concerns(es, k) && Last(es).Propose? then Last(es).levels else Asked(Init(es), k)
  }

  function AskedTrx(es: seq<Event>, k: Key): Transaction {
    if |es| == 0 then Transaction(0, 0) else if Concerns(es, k) && Last(es).Propose? then Last(es).trx else AskedTrx(Init(es), k)
  }

  /** When the level approved the latest proposal, in order. */
  function ApprovedAt(es: seq<Event>, k: Key, level: Level): seq<nat> {
    if |es| == 0 then []
    else if Concerns(es, k) && Last(es).Propose? then []
    else if Concerns(es, k) && Last(es).Approve? && Last(es).level == level then ApprovedAt(Init(es), k, level) + [Run(es).now]
    else ApprovedAt(Init(es), k, level)
  }

  /** How often it has taken an approval back. */
  function TakenBack(es: seq<Event>, k: Key, level: Level): nat {
    if |es| == 0 then 0
    else if Concerns(es, k) && Last(es).Propose? then 0
    else if Concerns(es, k) && Last(es).Unapprove? && Last(es).level == level then TakenBack(Init(es), k, level) + 1
    else TakenBack(Init(es), k, level)
  }

  /** When the account last invalidated its approvals, if it ever did. */
  datatype Moment = Never | At(time: nat)

  function Invalidated(es: seq<Event>, account: Name): Moment {
    if |es| == 0 then Never
    else if Passes(es) && Last(es) == Invalidate(account) then At(Run(es).now)
    else Invalidated(Init(es), account)
  }

  function Proposals(es: seq<Event>, k: Key): nat {
    if |es| == 0 then 0 else Proposals(Init(es), k) + if Concerns(es, k) && Last(es).Propose? then 1 else 0
  }

  function Endings(es: seq<Event>, k: Key): nat {
    if |es| == 0 then 0 else Endings(Init(es), k) + if Concerns(es, k) && (Last(es).Cancel? || Last(es).Exec?) then 1 else 0
  }

  function Executions(es: seq<Event>, k: Key): nat {
    if |es| == 0 then 0 else Executions(Init(es), k) + if Concerns(es, k) && Last(es).Exec? then 1 else 0
  }

  // ---------- what the tables say ----------

  function LevelsOf(xs: seq<Approval>): seq<Level> { seq(|xs|, i requires 0 <= i < |xs| => xs[i].level) }

  function TimesOf(xs: seq<Approval>, level: Level): seq<nat> {
    if xs == [] then []
    else TimesOf(xs[..|xs| - 1], level) + if xs[|xs| - 1].level == level then [xs[|xs| - 1].time] else []
  }

  function After(moment: Moment, time: nat): bool { moment.At? ==> moment.time < time }

  /** How many of these times are later than the moment. */
  function CountAfter(times: seq<nat>, moment: Moment): nat {
    if times == [] then 0
    else CountAfter(times[..|times| - 1], moment) + if After(moment, times[|times| - 1]) then 1 else 0
  }

  /** The approvals of a level that have not been taken back. */
  function Remaining(es: seq<Event>, k: Key, level: Level): seq<nat> {
    var times := ApprovedAt(es, k, level);
    if TakenBack(es, k, level) <= |times| then times[TakenBack(es, k, level)..] else []
  }

  ghost predicate RowMeans(es: seq<Event>, k: Key, s: State)
    requires k in s.proposals && k in s.approvals
  {
    var row := s.approvals[k];
    && s.proposals[k] == AskedTrx(es, k)
    && multiset(LevelsOf(row.requested)) + multiset(LevelsOf(row.provided)) == multiset(Asked(es, k))
    && (forall level :: TakenBack(es, k, level) <= |ApprovedAt(es, k, level)| && TimesOf(row.provided, level) == Remaining(es, k, level))
  }

  ghost predicate TablesMean(es: seq<Event>, s: State) {
    && s.proposals.Keys == s.approvals.Keys
    && (forall k :: k in s.proposals ==> RowMeans(es, k, s))
    && (forall account :: Invalidated(es, account) == if account in s.invalidations then At(s.invalidations[account]) else Never)
    && (forall k :: Proposals(es, k) == Endings(es, k) + if k in s.proposals then 1 else 0)
  }

  // ---------- lists ----------

  lemma LevelsAppend(xs: seq<Approval>, a: Approval)
    ensures LevelsOf(xs + [a]) == LevelsOf(xs) + [a.level]
  {
  }

  lemma LevelsWithout(xs: seq<Approval>, i: nat)
    requires i < |xs|
    ensures multiset(LevelsOf(Without(xs, i))) == multiset(LevelsOf(xs)) - multiset{xs[i].level}
  {
    var ls := LevelsOf(xs);
    assert LevelsOf(Without(xs, i)) == ls[..i] + ls[i + 1..];
    assert ls == ls[..i] + [ls[i]] + ls[i + 1..];
  }

  lemma {:induction false} TimesConcat(xs: seq<Approval>, ys: seq<Approval>, level: Level)
    ensures TimesOf(xs + ys, level) == TimesOf(xs, level) + TimesOf(ys, level)
  {
    if ys == [] {
      assert xs + ys == xs;
    } else {
      var n := |ys| - 1;
      TimesConcat(xs, ys[..n], level);
      assert (xs + ys)[..|xs + ys| - 1] == xs + ys[..n];
    }
  }

  lemma TimesOfOne(a: Approval, level: Level)
    ensures TimesOf([a], level) == if a.level == level then [a.time] else []
  {
    assert [a][..0] == [];
  }

  lemma {:induction false} TimesAbsent(xs: seq<Approval>, level: Level)
    requires forall j :: 0 <= j < |xs| ==> xs[j].level != level
    ensures TimesOf(xs, level) == []
  {
    if xs != [] {
      TimesAbsent(xs[..|xs| - 1], level);
    }
  }

  /** Taking out the first approval of a level takes its oldest time, and no other level's. */
  lemma TimesWithout(xs: seq<Approval>, found: Level, level: Level)
    requires Find(xs, found) < |xs|
    ensures level == found ==> |TimesOf(xs, level)| > 0
    ensures TimesOf(Without(xs, Find(xs, found)), level)
      == if level == found then TimesOf(xs, level)[1..] else TimesOf(xs, level)
  {
    hide TimesOf, Find;
    var i := Find(xs, found);
    TimesAround(xs, i, level);
    if level == found {
      TimesAbsent(xs[..i], level);
    }
  }

  lemma TimesAround(xs: seq<Approval>, i: nat, level: Level)
    requires i < |xs|
    ensures var here := if xs[i].level == level then [xs[i].time] else [];
      && TimesOf(xs, level) == TimesOf(xs[..i], level) + here + TimesOf(xs[i + 1..], level)
      && TimesOf(Without(xs, i), level) == TimesOf(xs[..i], level) + TimesOf(xs[i + 1..], level)
  {
    hide TimesOf;
    TimesConcat(xs[..i], xs[i + 1..], level);
    TimesConcat(xs[..i], [xs[i]], level);
    TimesConcat(xs[..i] + [xs[i]], xs[i + 1..], level);
    assert xs == xs[..i] + [xs[i]] + xs[i + 1..];
    TimesOfOne(xs[i], level);
  }

  lemma RequestedLevels(levels: seq<Level>)
    ensures LevelsOf(Requested(levels)) == levels
  {
  }

  // ---------- one event ----------

  /** An action writes the rows of its own proposal, and only `invalidate` writes the invalidations. */
  lemma PerformWrites(s: State, a: Multisig.Action, auth: set<Level>, accepts: Authority, k: Key)
    requires Perform(s, a, auth, accepts).Success?
    ensures var s' := Perform(s, a, auth, accepts).value;
      && s'.now == s.now
      && (a.Invalidate? ==> s'.invalidations == s.invalidations[a.account := s.now])
      && (!a.Invalidate? ==> s'.invalidations == s.invalidations)
      && (a.Invalidate? || KeyOf(a) != k ==> SameRows(s, s', k))
  {
    hide Standing, Find, Requested;
  }

  predicate SameRows(s: State, s': State, k: Key) {
    && (k in s'.proposals <==> k in s.proposals) && (k in s.proposals ==> s'.proposals[k] == s.proposals[k])
    && (k in s'.approvals <==> k in s.approvals) && (k in s.approvals ==> s'.approvals[k] == s.approvals[k])
  }

  /** What an event that is not about this proposal leaves as it was. */
  lemma Unconcerned(es: seq<Event>, k: Key)
    requires |es| > 0 && !Concerns(es, k)
    ensures SameRows(Run(Init(es)), Run(es), k)
  {
    hide Perform;
    var e := es[|es| - 1];
    if Passes(es) {
      PerformWrites(Later(Run(Init(es)), e.elapsed), e.action, e.auth, e.accepts, k);
    }
  }

  lemma RowProposed(es: seq<Event>, k: Key)
    requires Concerns(es, k) && Last(es).Propose?
    ensures var s' := Run(es); k in s'.proposals && k in s'.approvals && RowMeans(es, k, s')
  {
    hide Find, Standing;
    RequestedLevels(Last(es).levels);
    assert Run(es).approvals[k] == Approvals(Requested(Last(es).levels), []);
    assert LevelsOf([]) == [];
  }

  lemma RowApproved(es: seq<Event>, k: Key)
    requires Concerns(es, k) && Last(es).Approve?
    requires k in Run(Init(es)).proposals && k in Run(Init(es)).approvals && RowMeans(Init(es), k, Run(Init(es)))
    ensures var s' := Run(es); k in s'.proposals && k in s'.approvals && RowMeans(es, k, s')
  {
    hide Standing, LevelsOf, TimesOf;
    var s, s', given := Run(Init(es)), Run(es), Last(es).level;
    var row := s.approvals[k];
    var i := Find(row.requested, given);
    assert s'.approvals[k] == Approvals(Without(row.requested, i), row.provided + [Approval(given, s'.now)]);
    LevelsWithout(row.requested, i);
    LevelsAppend(row.provided, Approval(given, s'.now));
    assert given in LevelsOf(row.requested) by { Listed(row.requested, i); }
    forall level
      ensures TakenBack(es, k, level) <= |ApprovedAt(es, k, level)|
      ensures TimesOf(s'.approvals[k].provided, level) == Remaining(es, k, level)
    {
      TimesConcat(row.provided, [Approval(given, s'.now)], level);
      TimesOfOne(Approval(given, s'.now), level);
    }
  }

  lemma Listed(xs: seq<Approval>, i: nat)
    requires i < |xs|
    ensures xs[i].level in LevelsOf(xs) && xs[i].level in multiset(LevelsOf(xs))
  {
    assert LevelsOf(xs)[i] == xs[i].level;
  }

  lemma RowTakenBack(es: seq<Event>, k: Key)
    requires Concerns(es, k) && Last(es).Unapprove?
    requires k in Run(Init(es)).proposals && k in Run(Init(es)).approvals && RowMeans(Init(es), k, Run(Init(es)))
    ensures var s' := Run(es); k in s'.proposals && k in s'.approvals && RowMeans(es, k, s')
  {
    hide Standing, LevelsOf, TimesOf;
    var s, s', taken := Run(Init(es)), Run(es), Last(es).level;
    var row := s.approvals[k];
    var i := Find(row.provided, taken);
    assert s'.approvals[k] == Approvals(row.requested + [Approval(taken, s'.now)], Without(row.provided, i));
    LevelsWithout(row.provided, i);
    LevelsAppend(row.requested, Approval(taken, s'.now));
    assert taken in multiset(LevelsOf(row.provided)) by { Listed(row.provided, i); }
    forall level
      ensures TakenBack(es, k, level) <= |ApprovedAt(es, k, level)|
      ensures TimesOf(s'.approvals[k].provided, level) == Remaining(es, k, level)
    {
      TimesWithout(row.provided, taken, level);
    }
  }

  lemma RowGone(es: seq<Event>, k: Key)
    requires Concerns(es, k) && (Last(es).Cancel? || Last(es).Exec?)
    ensures k in Run(Init(es)).proposals && k !in Run(es).proposals && k !in Run(es).approvals
  {
    hide Standing;
  }

  lemma RowStays(es: seq<Event>, k: Key)
    requires |es| > 0 && !Concerns(es, k)
    requires k in Run(Init(es)).proposals && k in Run(Init(es)).approvals && RowMeans(Init(es), k, Run(Init(es)))
    ensures var s' := Run(es); k in s'.proposals && k in s'.approvals && RowMeans(es, k, s')
  {
    hide Run, LevelsOf, TimesOf, Concerns, Asked, AskedTrx, ApprovedAt, TakenBack;
    Unconcerned(es, k);
    TraceStays(es, k);
  }

  lemma TraceStays(es: seq<Event>, k: Key)
    requires |es| > 0 && !Concerns(es, k)
    ensures Asked(es, k) == Asked(Init(es), k) && AskedTrx(es, k) == AskedTrx(Init(es), k)
    ensures forall level :: ApprovedAt(es, k, level) == ApprovedAt(Init(es), k, level)
    ensures forall level :: TakenBack(es, k, level) == TakenBack(Init(es), k, level)
    ensures Proposals(es, k) == Proposals(Init(es), k) && Endings(es, k) == Endings(Init(es), k)
  {
    hide Run, Concerns, Passes;
  }

  lemma ProposedAnew(es: seq<Event>, k: Key)
    requires Concerns(es, k)
    ensures Last(es).Propose? ==> k !in Run(Init(es)).proposals
    ensures Last(es).Approve? || Last(es).Unapprove? ==>
      Run(es).proposals == Run(Init(es)).proposals && k in Run(Init(es)).approvals
  {
    hide Standing;
  }

  lemma NextRow(es: seq<Event>, k: Key)
    requires |es| > 0 && TablesMean(Init(es), Run(Init(es)))
    ensures var s' := Run(es);
      && (k in s'.proposals <==> k in s'.approvals)
      && (k in s'.proposals ==> RowMeans(es, k, s'))
      && Proposals(es, k) == Endings(es, k) + if k in s'.proposals then 1 else 0
  {
    hide Run, RowMeans;
    if !Concerns(es, k) {
      Unconcerned(es, k);
      if k in Run(Init(es)).proposals {
        RowStays(es, k);
      }
    } else {
      ProposedAnew(es, k);
      match Last(es)
      case Propose(_, _, _, _) => RowProposed(es, k);
      case Approve(_, _, _, _) => RowApproved(es, k);
      case Unapprove(_, _, _) => RowTakenBack(es, k);
      case Cancel(_, _, _) => RowGone(es, k);
      case Exec(_, _, _) => RowGone(es, k);
    }
  }

  lemma NextInvalidation(es: seq<Event>, account: Name)
    requires |es| > 0
    requires var s := Run(Init(es));
      Invalidated(Init(es), account) == if account in s.invalidations then At(s.invalidations[account]) else Never
    ensures var s' := Run(es);
      Invalidated(es, account) == if account in s'.invalidations then At(s'.invalidations[account]) else Never
  {
    hide Perform;
    var e := es[|es| - 1];
    if Passes(es) {
      PerformWrites(Later(Run(Init(es)), e.elapsed), e.action, e.auth, e.accepts, (0, 0));
    }
  }

  /** The tables refine the run: proposals and approvals exist together; requested and provided levels
      together are always the levels first asked for; the provided times of a level are its approvals
      without the oldest ones, one for each time it took an approval back. */
  lemma {:induction false} TablesMeanTheRun(es: seq<Event>)
    ensures TablesMean(es, Run(es))
  {
    if |es| > 0 {
      hide Run, RowMeans, Proposals, Endings, Invalidated;
      TablesMeanTheRun(Init(es));
      forall k
        ensures k in Run(es).proposals <==> k in Run(es).approvals
        ensures k in Run(es).proposals && k in Run(es).approvals ==> RowMeans(es, k, Run(es))
        ensures Proposals(es, k) == Endings(es, k) + if k in Run(es).proposals then 1 else 0
      {
        NextRow(es, k);
      }
      forall account
        ensures Invalidated(es, account) == if account in Run(es).invalidations then At(Run(es).invalidations[account]) else Never
      {
        NextInvalidation(es, account);
      }
    }
  }

  // ---------- execution ----------

  lemma {:induction false} StandingCounts(provided: seq<Approval>, invalidations: map<Name, nat>, level: Level)
    ensures multiset(Standing(provided, invalidations))[level]
      == CountAfter(TimesOf(provided, level), if level.actor in invalidations then At(invalidations[level.actor]) else Never)
  {
    if provided != [] {
      var n := |provided| - 1;
      StandingCounts(provided[..n], invalidations, level);
      var before := TimesOf(provided[..n], level);
      var moment := if level.actor in invalidations then At(invalidations[level.actor]) else Never;
      if provided[n].level == level {
        assert (before + [provided[n].time])[..|before|] == before;
        assert CountAfter(before + [provided[n].time], moment) == CountAfter(before, moment) + if After(moment, provided[n].time) then 1 else 0;
      }
      var counted := Standing(provided[..n], invalidations);
      assert counted + [] == counted && before + [] == before;
      assert multiset(counted + [provided[n].level])[level] == multiset(counted)[level] + if provided[n].level == level then 1 else 0;
    }
  }

  lemma ExecSends(es: seq<Event>, k: Key)
    requires Concerns(es, k) && Last(es).Exec?
    ensures var s := Run(Init(es));
      && k in s.proposals && k in s.approvals
      && Run(es).sent == s.sent + [Sent(k, s.proposals[k], Standing(s.approvals[k].provided, s.invalidations))]
  {
    hide Standing;
  }

  /** Execution submits the transaction that was proposed, with exactly the approvals that stand: each
      level as often as it has approvals not taken back and later than the last time its actor
      invalidated them. */
  lemma ExecSubmitsWhatStands(es: seq<Event>, k: Key, level: Level)
    requires Concerns(es, k) && Last(es).Exec?
    ensures var sent := Run(es).sent;
      && |sent| == |Run(Init(es)).sent| + 1
      && sent[|sent| - 1].key == k && sent[|sent| - 1].trx == AskedTrx(Init(es), k)
      && multiset(sent[|sent| - 1].levels)[level]
           == CountAfter(Remaining(Init(es), k, level), Invalidated(Init(es), level.actor))
  {
    hide Run, Standing, TimesOf, LevelsOf, Remaining;
    var s := Run(Init(es));
    ExecSends(es, k);
    TablesMeanTheRun(Init(es));
    assert RowMeans(Init(es), k, s);
    StandingCounts(s.approvals[k].provided, s.invalidations, level);
  }

  /** Each proposal is executed at most once: every execution uses up one proposal of that name. */
  lemma {:induction false} ExecutedAtMostOnce(es: seq<Event>, k: Key)
    ensures Executions(es, k) <= Endings(es, k)
    ensures Executions(es, k) + (if k in Run(es).proposals then 1 else 0) <= Proposals(es, k)
  {
    hide Run;
    if |es| > 0 {
      ExecutedAtMostOnce(Init(es), k);
    }
    TablesMeanTheRun(es);
  }

  /** With no level asked for twice, a level counts if and only if its latest approval has not been
      taken back and is strictly later than the last invalidation of its actor. */
  lemma ExecWithDistinctLevels(es: seq<Event>, k: Key, level: Level)
    requires Concerns(es, k) && Last(es).Exec? && multiset(Asked(Init(es), k))[level] <= 1
    ensures |Run(es).sent| > 0
    ensures var sent := Run(es).sent;
      var approved := ApprovedAt(Init(es), k, level);
      level in sent[|sent| - 1].levels <==>
        TakenBack(Init(es), k, level) < |approved| && After(Invalidated(Init(es), level.actor), approved[|approved| - 1])
  {
    hide Run, Passes, CountAfter, Asked, ApprovedAt, TakenBack, Invalidated;
    ExecSubmitsWhatStands(es, k, level);
    RemainsOnce(es, k, level);
    CountOfOne(Remaining(Init(es), k, level), Invalidated(Init(es), level.actor));
    var levels := Run(es).sent[|Run(es).sent| - 1].levels;
    assert level in levels <==> multiset(levels)[level] > 0;
  }

  lemma RemainsOnce(es: seq<Event>, k: Key, level: Level)
    requires Concerns(es, k) && Last(es).Exec? && multiset(Asked(Init(es), k))[level] <= 1
    ensures |Remaining(Init(es), k, level)| <= 1
    ensures TakenBack(Init(es), k, level) <= |ApprovedAt(Init(es), k, level)|
  {
    hide Run, Standing, TimesOf, LevelsOf, Passes, Asked, AskedTrx, ApprovedAt, TakenBack, Remaining;
    var s := Run(Init(es));
    ExecSends(es, k);
    TablesMeanTheRun(Init(es));
    assert RowMeans(Init(es), k, s);
    AtMostOne(s.approvals[k].provided, level);
  }

  lemma CountOfOne(times: seq<nat>, moment: Moment)
    requires |times| <= 1
    ensures CountAfter(times, moment) > 0 <==> |times| == 1 && After(moment, times[0])
  {
    if |times| == 1 {
      assert times[..0] == [];
    }
  }

  lemma {:induction false} AtMostOne(xs: seq<Approval>, level: Level)
    ensures |TimesOf(xs, level)| == multiset(LevelsOf(xs))[level]
  {
    if xs != [] {
      var n := |xs| - 1;
      AtMostOne(xs[..n], level);
      LevelsAppend(xs[..n], xs[n]);
      assert xs == xs[..n] + [xs[n]];
    }
  }
}
