/** Backing off over whole runs: idle autonomous cycles lengthen the heartbeat geometrically up to its maximum. */
module AutonomyRuns {
  import opened Common
  import opened Heartbeat
  import opened Autonomy
  import opened AutonomyProofs

  /**
   * The configuration stays, every cycle that ends is autonomous and without activity, and only cycles
   * already accounted are accounted again. Opening cycles, polling, commitments and pauses are free.
   */
  ghost predicate Quiet(db: Db, a: Action) {
    match a
    case Configure(_, _) => false
    case Deactivate => false
    case Finish(c, _, activity, _, _) => Enabled(db, a) ==> !activity && IsAutonomous(db.cycles[c].kinds)
    case Replay(c, _) => Enabled(db, a) ==> CountOf(db.events, c) == 1
    case _ => true
  }

  ghost predicate AllQuiet(db: Db, actions: seq<Action>) {
    forall i :: 0 <= i < |actions| ==> Quiet(Run(db, actions[..i]), actions[i])
  }

  /** The step ends a cycle; one that refuses its clock is rolled back and ends none. */
  predicate Ends(before: Db, a: Action, after: Db) {
    a.Finish? && IsActive(before.cycles, a.cycle) && !IsActive(after.cycles, a.cycle)
  }

  ghost function IdleCycles(db: Db, actions: seq<Action>): nat {
    if actions == [] then 0
    else
      var before := Run(db, actions[..|actions| - 1]);
      IdleCycles(db, actions[..|actions| - 1])
      + if Ends(before, actions[|actions| - 1], Run(db, actions)) then 1 else 0
  }

  /** The scheduler follows `config`, `j` idle cycles after its last reset. */
  ghost predicate Backed(db: Db, config: Id, policy: Policy, j: nat) {
    && Inv(db) && policy.Valid() && config in db.configs && db.configs[config] == policy && db.active == Some(config)
    && db.state.Some? && db.state.value.config == config && db.state.value.interval == IdleInterval(policy, j)
  }

  lemma EnsureBacks(db: Db, config: Id, policy: Policy, j: nat, now: Time, spare: Id)
    requires Backed(db, config, policy, j) && spare !in db.wakes && Ensure(db, now, spare).Ok?
    ensures Backed(Ensure(db, now, spare).value, config, policy, j)
  {
    EnsureKeepsInv(db, now, spare);
    EnsureLeavesInterval(db, config, policy, now, spare);
    hide Inv, Ensure, IdleInterval;
  }

  lemma EnsureLeavesInterval(db: Db, config: Id, policy: Policy, now: Time, spare: Id)
    requires Accepted(db, false) && config in db.configs && db.configs[config] == policy && db.active == Some(config)
    requires db.state.Some? && db.state.value.config == config && Ensure(db, now, spare).Ok?
    ensures var after := Ensure(db, now, spare).value;
      && after.configs == db.configs && after.active == db.active && after.state.Some?
      && after.state.value.config == config && after.state.value.interval == db.state.value.interval
  {
    hide AnchorOk, ManagedOk, HasActive, SnapshotOf, Desired;
  }

  lemma FinishBacks(db: Db, a: Action, config: Id, policy: Policy, j: nat)
    requires Backed(db, config, policy, j) && a.Finish? && Enabled(db, a) && Quiet(db, a)
    ensures var after := Step(db, a); Backed(after, config, policy, if Ends(db, a, after) then j + 1 else j)
  {
    FinishKeepsInv(db, a.cycle, a.failed, a.activity, a.now, a.spare);
    if db.state.value.anchorAt <= a.now {
      IdleCycleBacksOff(db, a.cycle, a.failed, a.now, a.spare, j);
      FinishEnds(db, a, config);
      hide Inv, Step, IdleInterval, Enabled, Quiet;
    } else {
      FinishRefused(db, a);
      hide Inv, Step, IdleInterval, Enabled, Quiet;
    }
  }

  lemma FinishRefused(db: Db, a: Action)
    requires Inv(db) && a.Finish? && Enabled(db, a) && db.state.Some? && a.now < db.state.value.anchorAt
    ensures Step(db, a) == db
  {
    var closed := Closed(db, a.cycle, a.failed, a.activity, a.now);
    ClosedSettles(db, a.cycle, a.failed, a.activity, a.now);
    NotYetAccounted(closed, a.cycle);
    OutcomeRefused(closed, a.cycle, a.now, a.spare);
    hide Inv, Settled, Outcome, CountOf;
  }

  lemma OutcomeRefused(db: Db, c: Id, now: Time, spare: Id)
    requires Terminal(db, c, now) && Accepted(db, true) && !Accounted(db, c)
    requires db.state.Some? && now < db.state.value.anchorAt && Governing(db).Some? && Governing(db).value in db.configs
    ensures Outcome(db, c, now, spare).Err?
  {
  }

  lemma FinishEnds(db: Db, a: Action, config: Id)
    requires Inv(db) && a.Finish? && Enabled(db, a) && db.state.Some? && db.state.value.anchorAt <= a.now
    requires db.active == Some(config) && config in db.configs
    ensures var after := Step(db, a);
      && after.configs == db.configs && after.active == db.active
      && (after.state.Some? ==> after.state.value.config == config) && !IsActive(after.cycles, a.cycle)
  {
    var closed := Closed(db, a.cycle, a.failed, a.activity, a.now);
    ClosedSettles(db, a.cycle, a.failed, a.activity, a.now);
    OutcomeKeeps(closed, a.cycle, a.now, a.spare);
    NotYetAccounted(closed, a.cycle);
    OutcomeLeaves(closed, a.cycle, a.now, a.spare, config);
    hide Inv, Settled, Outcome, CountOf;
  }

  lemma OutcomeLeaves(db: Db, c: Id, now: Time, spare: Id, config: Id)
    requires Outcome(db, c, now, spare).Ok? && !Accounted(db, c) && db.active == Some(config) && config in db.configs
    ensures var after := Outcome(db, c, now, spare).value;
      && after.configs == db.configs && after.active == db.active && after.cycles == db.cycles
      && after.state.Some? && after.state.value.config == config
  {
    hide Accepted, Desired, SnapshotOf, HasActive, Accounted, IsAutonomous, Policy.NextInterval;
  }

  lemma StepBacks(db: Db, a: Action, config: Id, policy: Policy, j: nat)
    requires Backed(db, config, policy, j) && Quiet(db, a)
    ensures Backed(Step(db, a), config, policy, if Ends(db, a, Step(db, a)) then j + 1 else j)
  {
    StepKeepsInv(db, a);
    if Enabled(db, a) {
      match a
      case EnsureHeartbeat(now, spare) =>
        if Ensure(db, now, spare).Ok? {
          EnsureBacks(db, config, policy, j, now, spare);
        }
        hide Inv, Ensure, IdleInterval;
      case Finish(_, _, _, _, _) => FinishBacks(db, a, config, policy, j);
      case Replay(c, spare) =>
        ReplayChangesNothing(db, c, spare);
        hide Inv, Outcome, IdleInterval;
      case _ => hide Inv, Ensure, Outcome, IdleInterval, Moved;
    }
  }

  lemma {:induction false} RunBacks(db: Db, actions: seq<Action>, config: Id, policy: Policy, j: nat)
    requires Backed(db, config, policy, j) && AllQuiet(db, actions)
    ensures Backed(Run(db, actions), config, policy, j + IdleCycles(db, actions))
  {
    hide Backed, Step, Quiet, Ends;
    if actions != [] {
      var front, last := actions[..|actions| - 1], actions[|actions| - 1];
      assert forall i :: 0 <= i < |front| ==> front[..i] == actions[..i];
      RunBacks(db, front, config, policy, j);
      StepBacks(Run(db, front), last, config, policy, j + IdleCycles(db, front));
    }
  }

  lemma ResetIsBacked(db: Db, config: Id, policy: Policy)
    requires Inv(db) && policy.Valid() && config in db.configs && db.configs[config] == policy && db.active == Some(config)
    requires db.state.Some? && db.state.value.config == config && db.state.value.interval == policy.Least()
    ensures Backed(db, config, policy, 0)
  {
    hide Inv;
  }

  lemma BackedInterval(db: Db, config: Id, policy: Policy, j: nat)
    requires Backed(db, config, policy, j)
    ensures policy.Valid() && db.state.Some? && db.state.value.interval == IdleInterval(policy, j)
  {
    hide Inv, IdleInterval;
  }

  /**
   * From a reset, k idle autonomous cycles in a run leave the interval at min(maximum, minimum * factor^k),
   * whatever polling, opening, pausing and refused endings are interleaved.
   */
  lemma IdleCyclesBackOff(db: Db, actions: seq<Action>, config: Id, policy: Policy, k: nat)
    requires Inv(db) && db.active == Some(config) && config in db.configs && db.configs[config] == policy && policy.Valid()
    requires db.state.Some? && db.state.value.config == config && db.state.value.interval == policy.Least()
    requires AllQuiet(db, actions) && k == IdleCycles(db, actions)
    ensures Run(db, actions).state.Some?
    ensures Run(db, actions).state.value.interval == RealMin(policy.Most(), policy.Least() * Power(policy.factor, k))
  {
    hide Step, AllQuiet, Inv, Backed, IdleInterval;
    ResetIsBacked(db, config, policy);
    RunBacks(db, actions, config, policy, 0);
    BackedGeometrically(Run(db, actions), config, policy, k);
  }

  lemma BackedGeometrically(db: Db, config: Id, policy: Policy, n: nat)
    requires Backed(db, config, policy, n)
    ensures policy.Valid() && db.state.Some?
    ensures db.state.value.interval == RealMin(policy.Most(), policy.Least() * Power(policy.factor, n))
  {
    hide Inv, IdleInterval, RealMin, Power;
    IdleIsGeometric(policy, n);
  }

  /** With a factor above one, after finitely many idle cycles the interval is the maximum and stays there. */
  lemma IdleCyclesReachMaximum(policy: Policy) returns (needed: nat)
    requires policy.Valid() && policy.factor > 1.0
    ensures forall db, config, k :: k >= needed && Backed(db, config, policy, k) ==>
      db.state.Some? && db.state.value.interval == policy.Most()
  {
    needed := MaximumIsReached(policy);
    forall db, config, k | k >= needed && Backed(db, config, policy, k)
      ensures db.state.Some? && db.state.value.interval == policy.Most()
    {
      BackedInterval(db, config, policy, k);
      hide Backed, IdleInterval;
    }
  }
}
