/** Rounds of passes, and the bound on how many of them it takes to converge. */
module Rounds {
  import opened Types
  import opened Protocol
  import opened Orphans
  import opened Stages
  import opened Convergence
  import opened Cleanup

  datatype Key = PoolKey | SetKey(name: string)

  predicate Rests(s: State, k: Key) {
    match k
    case PoolKey => s.poolPass.PoolIdle?
    case SetKey(n) => n !in s.passes
  }

  predicate Starts(a: Action, k: Key) {
    match k
    case PoolKey => a == OfPool(PoolStart)
    case SetKey(n) => a == OfSet(n, Start)
  }

  ghost predicate CalmRun(s: State, acts: seq<Action>)
    requires Run(s, acts)
    decreases |acts|
  {
    acts != [] ==> CalmRun(s, acts[..|acts| - 1]) && Calm(After(s, acts[..|acts| - 1]), acts[|acts| - 1])
  }

  ghost predicate Started(acts: seq<Action>, k: Key) {
    acts != [] && (Started(acts[..|acts| - 1], k) || Starts(acts[|acts| - 1], k))
  }

  /** A pass of `k` began and ended within the run. */
  ghost predicate Completed(s: State, acts: seq<Action>, k: Key)
    requires Run(s, acts)
    decreases |acts|
  {
    acts != [] && (Completed(s, acts[..|acts| - 1], k) || (Started(acts, k) && Rests(After(s, acts), k)))
  }

  /** A stretch of a calm run in which the pool and every named node set complete a pass. */
  ghost predicate Round(s: State, acts: seq<Action>, names: set<string>) {
    && Run(s, acts) && CalmRun(s, acts) && Completed(s, acts, PoolKey)
    && forall n | n in names :: Completed(s, acts, SetKey(n))
  }

  ghost predicate AllRounds(s: State, rounds: seq<seq<Action>>, names: set<string>)
    decreases |rounds|, 0
  {
    rounds != [] ==>
      && AllRounds(s, rounds[..|rounds| - 1], names)
      && Round(End(s, rounds[..|rounds| - 1], names), rounds[|rounds| - 1], names)
  }

  ghost function End(s: State, rounds: seq<seq<Action>>, names: set<string>): State
    requires AllRounds(s, rounds, names)
    decreases |rounds|, 1
  {
    if rounds == [] then s
    else After(End(s, rounds[..|rounds| - 1], names), rounds[|rounds| - 1])
  }

  // ---------- Legs: what one completed pass achieves ----------

  datatype Leg = Reach(k: nat) | Mark(before: set<string>) | Vanish(name: string) | Report

  ghost predicate From(leg: Leg, s: State) {
    match leg
    case Reach(k) => k < GOALS && Goal(k, s)
    case Mark(before) => Steady(s) && Others(s) <= before
    case Vanish(m) => Doomed(s) && m != Aim(s)
    case Report => Alone(s)
  }

  ghost predicate Busy(leg: Leg, s: State) {
    match leg
    case Reach(k) => k < GOALS && Working(k, s)
    case Mark(before) => Sweeping(s, before)
    case Vanish(m) => Vanishing(s, m) && m != Aim(s)
    case Report => Reporting(s)
  }

  ghost predicate To(leg: Leg, s: State) {
    match leg
    case Reach(k) => k < GOALS && Goal(k + 1, s)
    case Mark(before) => Swept(s, before)
    case Vanish(m) => Vanished(s, m) && m != Aim(s)
    case Report => Converged(s)
  }

  function KeyOf(leg: Leg, aim: string): Key {
    match leg
    case Reach(k) => if ByPoolPass(k) then PoolKey else SetKey(aim)
    case Mark(_) => PoolKey
    case Vanish(m) => SetKey(m)
    case Report => PoolKey
  }

  lemma LegStep(leg: Leg, s: State, a: Action)
    requires Base(s) && Enabled(s, a) && Calm(s, a)
    ensures From(leg, s) ==> From(leg, Apply(s, a))
    ensures Busy(leg, s) ==> Busy(leg, Apply(s, a))
    ensures To(leg, s) ==> To(leg, Apply(s, a))
  {
    BaseStep(s, a);
    match leg
    case Reach(k) =>
      if k < GOALS {
        GoalStep(k, s, a);
        GoalStep(k + 1, s, a);
      }
    case Mark(before) =>
      SweepingStep(s, a, before);
      SweptStep(s, a, before);
      OthersShrink(s, a);
      if Steady(s) { SteadyStep(s, a); }
    case Vanish(m) =>
      if m != Aim(s) { VanishingStep(s, a, m); }
      SweptStep(s, a, {});
    case Report => ReportingStep(s, a);
  }

  lemma LegStarts(leg: Leg, s: State, a: Action)
    requires Base(s) && From(leg, s) && Enabled(s, a) && Starts(a, KeyOf(leg, Aim(s)))
    ensures Busy(leg, Apply(s, a))
  {
    match leg
    case Reach(k) => WorkStarts(k, s);
    case Mark(before) => SweepStarts(s, before);
    case Vanish(m) => VanishStarts(s, m);
    case Report => ReportStarts(s);
  }

  lemma ReportStarts(s: State)
    requires Base(s) && Alone(s) && s.poolPass.PoolIdle?
    ensures Reporting(PoolStep(s, PoolStart))
  {
    SweepingPlace(s, PoolStep(s, PoolStart));
  }

  lemma LegEnds(leg: Leg, s: State)
    requires Base(s) && Busy(leg, s) && Rests(s, KeyOf(leg, Aim(s)))
    ensures To(leg, s)
  {
    if leg.Reach? { WorkEnds(leg.k, s); }
  }

  lemma {:induction false} LegRun(leg: Leg, s: State, acts: seq<Action>)
    requires Base(s) && From(leg, s) && Run(s, acts) && CalmRun(s, acts)
    ensures var s' := After(s, acts);
      && Base(s') && Aim(s') == Aim(s) && From(leg, s')
      && (Started(acts, KeyOf(leg, Aim(s))) ==> Busy(leg, s'))
      && (Completed(s, acts, KeyOf(leg, Aim(s))) ==> To(leg, s'))
    decreases |acts|
  {
    if acts != [] {
      var front, a := acts[..|acts| - 1], acts[|acts| - 1];
      LegRun(leg, s, front);
      var here := After(s, front);
      BaseStep(here, a);
      LegStep(leg, here, a);
      if Starts(a, KeyOf(leg, Aim(s))) { LegStarts(leg, here, a); }
      var s' := After(s, acts);
      if Rests(s', KeyOf(leg, Aim(s))) && Busy(leg, s') { LegEnds(leg, s'); }
    }
  }

  lemma {:induction false} OthersShrinkRun(s: State, acts: seq<Action>)
    requires Base(s) && Run(s, acts) && CalmRun(s, acts)
    ensures Base(After(s, acts)) && Aim(After(s, acts)) == Aim(s) && Others(After(s, acts)) <= Others(s)
    decreases |acts|
  {
    if acts != [] {
      var front, a := acts[..|acts| - 1], acts[|acts| - 1];
      OthersShrinkRun(s, front);
      BaseStep(After(s, front), a);
      OthersShrink(After(s, front), a);
    }
  }

  // ---------- Milestones ----------

  /** How far `r` rounds have come, when `count` older sets were there at first. */
  ghost predicate Milestone(s: State, r: nat, count: nat) {
    if r < GOALS then Goal(r, s)
    else if r < GOALS + count then Steady(s) && (Doomed(s) || |Others(s)| <= GOALS + count - r)
    else if r == GOALS + count then Doomed(s)
    else if r == GOALS + count + 1 then Alone(s)
    else Converged(s)
  }

  lemma GoalRound(s: State, acts: seq<Action>, names: set<string>, k: nat)
    requires Base(s) && Round(s, acts, names) && Aim(s) in names && k < GOALS && Goal(k, s)
    ensures Goal(k + 1, After(s, acts))
  {
    LegRun(Reach(k), s, acts);
  }

  lemma MarkRound(s: State, acts: seq<Action>, names: set<string>)
    requires Base(s) && Round(s, acts, names) && Steady(s)
    ensures var s' := After(s, acts);
      Steady(s') && (Doomed(s') || |Others(s')| < |Others(s)|) && (Doomed(s) ==> Doomed(s'))
  {
    LegRun(Mark(Others(s)), s, acts);
    ProperSubset(Others(After(s, acts)), Others(s));
    if Doomed(s) { DoomedRun(s, acts); }
  }

  lemma ProperSubset(x: set<string>, y: set<string>)
    ensures x <= y && x != y ==> |x| < |y|
  {
    if x <= y && x != y {
      assert y == x + (y - x);
      assert y - x != {};
    }
  }

  lemma {:induction false} DoomedRun(s: State, acts: seq<Action>)
    requires Base(s) && Doomed(s) && Run(s, acts) && CalmRun(s, acts)
    ensures Doomed(After(s, acts))
    decreases |acts|
  {
    if acts != [] {
      var front := acts[..|acts| - 1];
      OthersShrinkRun(s, front);
      DoomedRun(s, front);
      SweptStep(After(s, front), acts[|acts| - 1], {});
    }
  }

  lemma VanishRound(s: State, acts: seq<Action>, names: set<string>)
    requires Base(s) && Round(s, acts, names) && Doomed(s) && Others(s) <= names
    ensures Alone(After(s, acts))
  {
    var s' := After(s, acts);
    DoomedRun(s, acts);
    OthersShrinkRun(s, acts);
    forall m | m in Others(s')
      ensures false
    {
      assert m in Others(s);
      LegRun(Vanish(m), s, acts);
    }
    assert Others(s') == {};
  }

  lemma ReportRound(s: State, acts: seq<Action>, names: set<string>)
    requires Base(s) && Round(s, acts, names) && Alone(s)
    ensures Converged(After(s, acts))
  {
    LegRun(Report, s, acts);
  }

  lemma {:induction false} ConvergedRun(s: State, acts: seq<Action>)
    requires Base(s) && Converged(s) && Run(s, acts) && CalmRun(s, acts)
    ensures Converged(After(s, acts))
    decreases |acts|
  {
    if acts != [] {
      var front := acts[..|acts| - 1];
      OthersShrinkRun(s, front);
      ConvergedRun(s, front);
      ReportingStep(After(s, front), acts[|acts| - 1]);
    }
  }

  lemma NextMilestone(s: State, acts: seq<Action>, names: set<string>, r: nat, count: nat)
    requires Base(s) && Round(s, acts, names) && Aim(s) in names && Others(s) <= names
    requires |Others(s)| <= count && Milestone(s, r, count)
    ensures Milestone(After(s, acts), r + 1, count)
  {
    if r < GOALS {
      GoalRound(s, acts, names, r);
      OthersShrinkRun(s, acts);
      if r + 1 == GOALS {
        assert Steady(After(s, acts));
        SmallerSet(Others(After(s, acts)), Others(s));
      }
    } else if r < GOALS + count {
      MarkRound(s, acts, names);
    } else if r == GOALS + count {
      VanishRound(s, acts, names);
    } else if r == GOALS + count + 1 {
      ReportRound(s, acts, names);
    } else {
      ConvergedRun(s, acts);
    }
  }

  lemma SmallerSet(x: set<string>, y: set<string>)
    requires x <= y
    ensures |x| <= |y|
  {
    ProperSubset(x, y);
  }

  /** In a calm run of rounds the pool's pass soon knows the spec. */
  lemma {:induction false} FitRun(s: State, acts: seq<Action>)
    requires Fit(s) && Run(s, acts) && CalmRun(s, acts)
    ensures var s' := After(s, acts);
      && Fit(s') && Aim(s') == Aim(s) && Expected(s') <= Expected(s)
      && (KnowsSpec(s) || Started(acts, PoolKey) ==> KnowsSpec(s'))
    decreases |acts|
  {
    if acts != [] {
      FitRun(s, acts[..|acts| - 1]);
      FitStep(After(s, acts[..|acts| - 1]), acts[|acts| - 1]);
    }
  }

  lemma {:induction false} CompletedStarted(s: State, acts: seq<Action>, k: Key)
    requires Run(s, acts) && Completed(s, acts, k)
    ensures Started(acts, k)
    decreases |acts|
  {
    if !(Started(acts, k) && Rests(After(s, acts), k)) {
      CompletedStarted(s, acts[..|acts| - 1], k);
    }
  }

  lemma RoundKnows(s: State, acts: seq<Action>, names: set<string>)
    requires Fit(s) && Round(s, acts, names)
    ensures Base(After(s, acts)) && Aim(After(s, acts)) == Aim(s) && Expected(After(s, acts)) <= Expected(s)
  {
    FitRun(s, acts);
    CompletedStarted(s, acts, PoolKey);
    BaseIsFit(After(s, acts));
  }

  /** Node sets that have to go. */
  ghost function Older(s: State): set<string> {
    Expected(s) - {Aim(s)}
  }

  /** A pass of the pool that read an older spec has to end first. */
  function Lag(s: State): nat {
    if KnowsSpec(s) then 0 else 1
  }

  /** What `r` rounds from `s` have brought about at `here`. */
  ghost predicate Reached(s: State, here: State, r: nat) {
    && Fit(here) && Aim(here) == Aim(s) && Expected(here) <= Expected(s)
    && (r >= Lag(s) ==> Base(here) && Milestone(here, r - Lag(s), |Older(s)|))
  }

  lemma ReachedByRound(s: State, here: State, acts: seq<Action>, names: set<string>, r: nat)
    requires Reached(s, here, r) && Expected(s) <= names && Round(here, acts, names)
    ensures Reached(s, After(here, acts), r + 1)
  {
    RoundKnows(here, acts, names);
    BaseIsFit(After(here, acts));
    if r >= Lag(s) {
      SmallerSet(Others(here), Older(s));
      NextMilestone(here, acts, names, r - Lag(s), |Older(s)|);
    }
  }

  lemma {:induction false} ReachedAfter(s: State, rounds: seq<seq<Action>>, names: set<string>)
    requires Fit(s) && AllRounds(s, rounds, names) && Expected(s) <= names
    ensures Reached(s, End(s, rounds, names), |rounds|)
    decreases |rounds|
  {
    if rounds != [] {
      var front, last := rounds[..|rounds| - 1], rounds[|rounds| - 1];
      ReachedAfter(s, front, names);
      ReachedByRound(s, End(s, front, names), last, names, |front|);
    } else {
      ReachedFirst(s);
    }
  }

  lemma ReachedFirst(s: State)
    requires Fit(s)
    ensures Reached(s, s, 0)
  {
    BaseIsFit(s);
  }

  // ---------- The theorems ----------

  /** What the end looks like. */
  lemma ConvergedMeans(s: State)
    requires Base(s) && Converged(s)
    ensures var t, count := Aim(s), s.pool.spec.replicas.value;
      && s.nodeSets.Keys == {t} && s.nodeSets[t].spec == s.pool.spec && !s.nodeSets[t].deleting
      && s.cloud.Keys == {t} && |s.cloud[t].vms| == count
      && s.nodeSets[t].status.nodes == s.cloud[t].vms
      && s.pool.status == NodePoolStatus(t, count, count, s.pool.spec.version, "Succeeded")
  {
    var t := Aim(s);
    assert forall n | n in s.nodeSets :: n == t || n in Others(s);
    assert s.nodeSets.Keys == {t};
    assert s.cloud.Keys == {t};
  }

  /** Convergence: fourteen rounds, one more when the pool's pass still carries an older spec, and one for each
      other node set that is there or that this pass may still make, suffice from every fit state. */
  lemma ConvergesWithinRounds(s: State, rounds: seq<seq<Action>>, names: set<string>)
    requires Fit(s) && Expected(s) <= names
    requires AllRounds(s, rounds, names) && |rounds| >= GOALS + 2 + Lag(s) + |Older(s)|
    ensures Base(End(s, rounds, names)) && Converged(End(s, rounds, names))
  {
    ReachedAfter(s, rounds, names);
  }

  /** In a converged state no call of any reconciler changes anything that is stored, in the API or in the cloud,
      and the state stays converged. */
  lemma ConvergedIsAFixpoint(s: State, a: Action)
    requires Base(s) && Converged(s) && Enabled(s, a) && Calm(s, a)
    ensures var s' := Apply(s, a);
      && s'.pool == s.pool && s'.nodeSets == s.nodeSets && s'.cloud == s.cloud && s'.clock == s.clock
      && Converged(s')
  {
    ReportingStep(s, a);
    match a
    case OfPool(m) => PoolChangesNothing(s, m);
    case OfSet(n, m) =>
      MoveShape(s, n, m);
      if n == Aim(s) {
        RecordedCallsNothing(s, n, m);
      } else {
        StrangerChangesNothing(s, n, m);
      }
  }

  lemma PoolChangesNothing(s: State, m: PoolMove)
    requires Base(s) && Converged(s) && PoolEnabled(s, m)
    ensures var s' := PoolStep(s, m);
      s'.pool == s.pool && s'.nodeSets == s.nodeSets && s'.cloud == s.cloud && s'.clock == s.clock
  {
    assert forall n | n in s.nodeSets :: n == Aim(s) || n in Others(s);
    if m.PoolRespec? {
    } else if m.PoolCollect? {
    } else {
    }
  }

  /** A pass left over from a node set that is gone finds nothing to write. */
  lemma StrangerChangesNothing(s: State, n: string, m: PassMove)
    requires Base(s) && Converged(s) && n != Aim(s) && Enabled(s, OfSet(n, m))
    ensures var s' := Apply(s, OfSet(n, m));
      s'.pool == s.pool && s'.nodeSets == s.nodeSets && s'.cloud == s.cloud && s'.clock == s.clock
  {
    assert n !in s.nodeSets by {
      assert n in s.nodeSets ==> n in Others(s);
    }
    assert PassHeld(s, n);
  }
}
