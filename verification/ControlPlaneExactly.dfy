/** Exactly when a control plane stays honest until its version is changed next. */
module ControlPlaneExactly {
  import opened Types
  import opened ControlPlane

  predicate Unchanged(acts: seq<Action>) {
    forall a | a in acts :: !a.SetVersion?
  }

  /** Whatever passes fail, succeed and are retried, and whatever lands, before the version is changed again. */
  ghost predicate HonestUntilChange(s: State) {
    forall acts | Run(s, acts) && Unchanged(acts) :: Honest(After(s, acts))
  }

  /** What can be read before a pass: a stored success is true for good; and when there is work to do, an upgrade has
      no command outstanding for another version, and a first start has all masters at the wanted version for good. */
  ghost predicate Trustworthy(s: State) {
    && (s.object'.status.state == "Succeeded" ==> AllFixed(s, s.object'.status.nodes, s.object'.status.version))
    && (s.object'.version != s.object'.status.version ==>
        if s.object'.status.version == "" then forall n | n in s.masters :: Fixed(s, n, s.object'.version)
        else OutstandingOnly(s, s.object'.version))
  }

  // ---------- Trustworthy is enough ----------

  /** One version throughout. */
  ghost predicate Steadfast(s: State, version: string) {
    && Truthful(s, version) && s.object'.version == version
    && (s.pass.Some? ==> s.pass.value.inst.version == version)
    && (version != s.object'.status.version ==> OutstandingOnly(s, version))
  }

  lemma PassStepSteadfast(s: State, a: Action, version: string)
    requires Steadfast(s, version) && s.pass.Some? && PassEnabled(s, s.pass.value, a)
    ensures Steadfast(PassStep(s, s.pass.value, a), version)
  {
    PassStepTruthful(s, a, version);
  }

  lemma SteadfastStep(s: State, a: Action, version: string)
    requires Steadfast(s, version) && Enabled(s, a) && !a.SetVersion?
    ensures Steadfast(Apply(s, a), version)
  {
    TruthfulStep(s, a, version);
    match a
    case Land(_, _) =>
    case Lose(_, _) =>
    case Start =>
    case _ => PassStepSteadfast(s, a, version);
  }

  lemma {:induction false} SteadfastRun(s: State, acts: seq<Action>, version: string)
    requires Steadfast(s, version) && Run(s, acts) && Unchanged(acts)
    ensures Steadfast(After(s, acts), version)
    decreases |acts|
  {
    if acts != [] {
      SteadfastRun(s, acts[..|acts| - 1], version);
      assert acts[|acts| - 1] in acts;
      SteadfastStep(After(s, acts[..|acts| - 1]), acts[|acts| - 1], version);
    }
  }

  // ---------- Trustworthy is needed ----------

  ghost predicate Leads(s: State, acts: seq<Action>, x: State) {
    Run(s, acts) && After(s, acts) == x && Unchanged(acts)
  }

  ghost predicate Reaches(s: State, x: State) {
    exists acts :: Leads(s, acts, x)
  }

  lemma Onward(s: State, x: State, a: Action) returns (y: State)
    requires Reaches(s, x) && Enabled(x, a) && !a.SetVersion?
    ensures Reaches(s, y) && y == Apply(x, a)
  {
    var acts :| Leads(s, acts, x);
    RunExtends(s, acts, a);
    assert Leads(s, acts + [a], Apply(x, a));
    y := Apply(x, a);
  }

  lemma DishonestBreaks(s: State, x: State)
    requires Reaches(s, x) && !Honest(x)
    ensures !HonestUntilChange(s)
  {
    var acts :| Leads(s, acts, x);
  }

  /** A pass that lists one master only. */
  predicate For(p: Pass, version: string, n: string) {
    p.inst.version == version && p.inst.status.nodes == [n] && p.inst.status.state == UPDATING
  }

  lemma Lists(s: State, n: string) returns (y: State)
    requires s.pass.None? && s.object'.version != s.object'.status.version && n in s.masters
    ensures Reaches(s, y) && y.masters == s.masters
    ensures y.pass.Some? && y.pass.value.Provisioning? && For(y.pass.value, s.object'.version, n)
    ensures var inst := y.pass.value.inst;
      inst.rv == y.object'.rv && inst.status.version == s.object'.status.version
  {
    assert Leads(s, [], s);
    var y1 := Onward(s, s, Start);
    var y2 := Onward(s, y1, ListMasters([n]));
    y := Onward(s, y2, Record);
  }

  lemma Provisions(s: State, x: State, version: string, n: string) returns (y: State)
    requires Reaches(s, x) && x.pass.Some? && x.pass.value.Provisioning? && For(x.pass.value, version, n)
    ensures Reaches(s, y) && y.masters == x.masters && y.object' == x.object'
    ensures var inst := x.pass.value.inst;
      y.pass == Some(if Upgrades(inst) then Checking(inst, 0) else Awaiting(inst))
  {
    y := Onward(s, x, Provision({}));
    assert y.masters == x.masters;
  }

  /** The wait ends, and success is stored. */
  lemma Succeeds(s: State, x: State, version: string, n: string) returns (y: State)
    requires Reaches(s, x) && x.pass.Some? && x.pass.value.Awaiting? && For(x.pass.value, version, n)
    requires x.pass.value.inst.rv == x.object'.rv
    ensures Reaches(s, y) && y.masters == x.masters
    ensures y.object'.status == Status(version, SUCCEEDED, [n])
  {
    var y1 := Onward(s, x, NodesReady);
    y := Onward(s, y1, Record);
  }

  /** A success for a master that is elsewhere, or may still go there. */
  lemma NotFixedBreaks(s: State, x: State, version: string, n: string)
    requires Reaches(s, x) && x.object'.status == Status(version, SUCCEEDED, [n])
    requires n in x.masters && !Fixed(x, n, version)
    ensures !HonestUntilChange(s)
  {
    assert n in x.object'.status.nodes;
    if x.masters[n].version != version {
      DishonestBreaks(s, x);
    } else {
      var v :| v in x.masters[n].pending && v != version;
      var y := Onward(s, x, Land(n, v));
      DishonestBreaks(s, y);
    }
  }

  lemma FirstStartBreaks(s: State, n: string)
    requires s.pass.None? && s.object'.status.version == "" && s.object'.version != ""
    requires n in s.masters && !Fixed(s, n, s.object'.version)
    ensures !HonestUntilChange(s)
  {
    var v := s.object'.version;
    var y1 := Lists(s, n);
    var y2 := Provisions(s, y1, v, n);
    var y3 := Succeeds(s, y2, v, n);
    NotFixedBreaks(s, y3, v, n);
  }

  /** The upgrade of one master steps over it, or commands it and waits; a command for another version stays. */
  lemma Upgraded(s: State, x: State, version: string, n: string, other: string) returns (y: State)
    requires Reaches(s, x) && x.pass.Some? && x.pass.value.Checking? && For(x.pass.value, version, n)
    requires x.pass.value.i == 0 && n in x.masters && other in x.masters[n].pending && other != version
    ensures Reaches(s, y) && y.object' == x.object' && y.pass == Some(Checking(x.pass.value.inst, 1))
    ensures n in y.masters && other in y.masters[n].pending
  {
    y := Onward(s, x, Check);
    if x.masters[n].version != version {
      y := Commanded(s, y, version, n, other);
    }
  }

  /** The command is given, lands, and is seen to have landed. */
  lemma Commanded(s: State, x: State, version: string, n: string, other: string) returns (y: State)
    requires Reaches(s, x) && x.pass.Some? && x.pass.value.Commanding? && For(x.pass.value, version, n)
    requires x.pass.value.i == 0 && n in x.masters && other in x.masters[n].pending && other != version
    ensures Reaches(s, y) && y.object' == x.object' && y.pass == Some(Checking(x.pass.value.inst, 1))
    ensures n in y.masters && other in y.masters[n].pending
  {
    var y1 := Onward(s, x, Command(n));
    var y2 := Onward(s, y1, Land(n, version));
    y := Onward(s, y2, Observe(n));
  }

  lemma LateCommandBreaks(s: State, n: string, other: string)
    requires s.pass.None? && s.object'.status.version != "" && s.object'.version != s.object'.status.version
    requires n in s.masters && other in s.masters[n].pending && other != s.object'.version
    ensures !HonestUntilChange(s)
  {
    var v := s.object'.version;
    var y1 := Lists(s, n);
    var y2 := Provisions(s, y1, v, n);
    var y3 := Upgraded(s, y2, v, n, other);
    var y4 := Onward(s, y3, Check);
    var y5 := Succeeds(s, y4, v, n);
    NotFixedBreaks(s, y5, v, n);
  }

  lemma StoredBreaks(s: State)
    requires s.object'.status.state == SUCCEEDED
    requires !AllFixed(s, s.object'.status.nodes, s.object'.status.version)
    ensures !HonestUntilChange(s)
  {
    SuccessLastsExactly(s);
    var acts :| Run(s, acts) && (forall a | a in acts :: OnlyLands(a)) && !Honest(After(s, acts));
    assert Unchanged(acts);
  }

  /** Before a pass, with failures and retries of every kind to come: the control plane reports success only
      truthfully until its version is changed next, exactly when what can be read now is trustworthy. */
  lemma HonestUntilChangeExactly(s: State)
    requires Current(s) && s.pass.None?
    ensures HonestUntilChange(s) <==> Trustworthy(s)
  {
    var v := s.object'.version;
    if Trustworthy(s) {
      forall acts | Run(s, acts) && Unchanged(acts) ensures Honest(After(s, acts)) {
        SteadfastRun(s, acts, v);
        TruthfulIsHonest(After(s, acts), v);
      }
    } else if s.object'.status.state == SUCCEEDED && !AllFixed(s, s.object'.status.nodes, s.object'.status.version) {
      StoredBreaks(s);
    } else if s.object'.status.version == "" {
      var n :| n in s.masters && !Fixed(s, n, v);
      FirstStartBreaks(s, n);
    } else {
      var n :| n in s.masters && !(s.masters[n].pending <= {v});
      var other :| other in s.masters[n].pending && other != v;
      LateCommandBreaks(s, n, other);
    }
  }
}
