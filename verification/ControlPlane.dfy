/**
 The control-plane reconciler as a state machine: a rolling upgrade of the masters, resumed by every pass, between
 a status write "Updating" and a status write "Succeeded". One object, one pass at a time; users and the machines
 move in between.
 */
module ControlPlane {
  import opened Types

  /** A master: the Kubernetes version its kubelet reports (without the leading "v"), and the versions of upgrade
      commands that were accepted and have not taken effect yet. */
  datatype Master = Master(version: string, pending: set<string>)

  datatype Status = Status(version: string, state: string, nodes: seq<string>)

  datatype Object = Object(rv: nat, version: string, status: Status)

  /** A running pass, named by the call it is about to issue; `i` is its place in the list of masters. */
  datatype Pass =
    | Listing(inst: Object)
    | Recording(inst: Object, done: bool)
    | Provisioning(inst: Object)
    | Checking(inst: Object, i: nat)
    | Commanding(inst: Object, i: nat)
    | Waiting(inst: Object, i: nat)
    | Awaiting(inst: Object)

  datatype State = State(clock: nat, object': Object, masters: map<string, Master>, pass: Option<Pass>)

  datatype Action =
    // users and machines
    | SetVersion(version: string)
    | Land(master: string, landed: string)
    | Lose(master: string, lost: string)
    // the pass
    | Start
    | Abort
    | ListMasters(names: seq<string>)
    | Record
    | Provision(joined: set<string>)
    | Check
    | Command(master: string)
    | Observe(master: string)
    | NodesReady

  function Stored(s: State, status: Status): State {
    if s.object'.status == status then s
    else s.(object' := s.object'.(status := status, rv := s.clock), clock := s.clock + 1)
  }

  function At(s: State, p: Pass): State { s.(pass := Some(p)) }

  function Idle(s: State): State { s.(pass := None) }

  /** The upgrade loop runs only for a control plane that succeeded before, at another version. */
  predicate Upgrades(inst: Object) {
    inst.status.version != "" && inst.status.version != inst.version
  }

  predicate PassEnabled(s: State, p: Pass, a: Action) {
    match a
    case Abort => true
    case ListMasters(names) => p.Listing? && forall n | n in names :: n in s.masters
    case Record => p.Recording?
    case Provision(joined) => p.Provisioning? && joined !! s.masters.Keys
    case Check => p.Checking? && (p.i < |p.inst.status.nodes| ==> p.inst.status.nodes[p.i] in s.masters)
    case Command(m) =>
      p.Commanding? && p.i < |p.inst.status.nodes| && m == p.inst.status.nodes[p.i] && m in s.masters
    case Observe(m) =>
      && p.Waiting? && p.i < |p.inst.status.nodes| && m == p.inst.status.nodes[p.i] && m in s.masters
      && s.masters[m].version == p.inst.version
    case NodesReady => p.Awaiting?
    case _ => false
  }

  function PassStep(s: State, p: Pass, a: Action): State
    requires PassEnabled(s, p, a)
  {
    var inst := p.inst;
    match a
    case Abort => Idle(s)
    case ListMasters(names) => At(s, Recording(inst.(status := inst.status.(nodes := names, state := UPDATING)), false))
    case Record =>
      if s.object'.rv != inst.rv then Idle(s)
      else
        var s' := Stored(s, inst.status);
        if p.done then Idle(s') else At(s', Provisioning(s'.object'))
    case Provision(joined) =>
      At(s.(masters := s.masters + map n | n in joined :: Master(inst.version, {})),
         if Upgrades(inst) then Checking(inst, 0) else Awaiting(inst))
    case Check =>
      if p.i >= |inst.status.nodes| then At(s, Awaiting(inst))
      else if s.masters[inst.status.nodes[p.i]].version == inst.version then At(s, Checking(inst, p.i + 1))
      else At(s, Commanding(inst, p.i))
    case Command(m) =>
      At(s.(masters := s.masters[m := s.masters[m].(pending := s.masters[m].pending + {inst.version})]),
         Waiting(inst, p.i))
    case Observe(_) => At(s, Checking(inst, p.i + 1))
    case NodesReady =>
      At(s, Recording(inst.(status := inst.status.(version := inst.version, state := SUCCEEDED)), true))
  }

  predicate Enabled(s: State, a: Action) {
    match a
    case SetVersion(_) => true
    case Land(m, v) => m in s.masters && v in s.masters[m].pending
    case Lose(m, v) => m in s.masters && v in s.masters[m].pending
    case Start => s.pass.None?
    case _ => s.pass.Some? && PassEnabled(s, s.pass.value, a)
  }

  function Apply(s: State, a: Action): State
    requires Enabled(s, a)
  {
    match a
    case SetVersion(v) => s.(object' := s.object'.(version := v, rv := s.clock), clock := s.clock + 1)
    case Land(m, v) => s.(masters := s.masters[m := Master(v, s.masters[m].pending - {v})])
    case Lose(m, v) => s.(masters := s.masters[m := s.masters[m].(pending := s.masters[m].pending - {v})])
    case Start => if s.object'.version == s.object'.status.version then s else At(s, Listing(s.object'))
    case _ => PassStep(s, s.pass.value, a)
  }

  // ---------- Runs ----------

  ghost predicate Run(s: State, acts: seq<Action>)
    decreases |acts|, 0
  {
    acts == [] || (Run(s, acts[..|acts| - 1]) && Enabled(After(s, acts[..|acts| - 1]), acts[|acts| - 1]))
  }

  ghost function After(s: State, acts: seq<Action>): State
    requires Run(s, acts)
    decreases |acts|, 1
  {
    if acts == [] then s else Apply(After(s, acts[..|acts| - 1]), acts[|acts| - 1])
  }

  lemma RunExtends(s: State, acts: seq<Action>, a: Action)
    requires Run(s, acts) && Enabled(After(s, acts), a)
    ensures Run(s, acts + [a]) && After(s, acts + [a]) == Apply(After(s, acts), a)
  {
    assert (acts + [a])[..|acts + [a]| - 1] == acts;
  }

  // ---------- The pass's copy ----------

  /** A copy with the stored resource version has the stored contents. */
  ghost predicate Current(s: State) {
    && s.object'.rv < s.clock
    && (s.pass.Some? ==>
        s.pass.value.inst.rv <= s.object'.rv
        && (s.pass.value.inst.rv == s.object'.rv ==> s.pass.value.inst.version == s.object'.version))
  }

  lemma {:induction false} CurrentRun(s: State, acts: seq<Action>)
    requires Current(s) && Run(s, acts)
    ensures Current(After(s, acts))
    decreases |acts|
  {
    if acts != [] {
      CurrentRun(s, acts[..|acts| - 1]);
    }
  }

  // ---------- Honesty ----------

  /** Whenever the stored state reads Succeeded, every listed master is at the stored version. */
  ghost predicate Honest(s: State) {
    s.object'.status.state == "Succeeded" ==>
      forall n | n in s.object'.status.nodes ::
        n in s.masters && s.masters[n].version == s.object'.status.version
  }

  /** No outstanding command is for another version. */
  predicate OutstandingOnly(s: State, version: string) {
    forall n | n in s.masters :: s.masters[n].pending <= {version}
  }

  /** What a run must grant. Versions are not empty. A pass that goes to work finds no command outstanding for a
      version other than the one it is for; commands of earlier passes for that version may still land. And the
      version is left alone until the first success. */
  ghost predicate Granted(s: State, a: Action, bootstrap: string) {
    && (a.Start? && s.object'.version != s.object'.status.version ==> OutstandingOnly(s, s.object'.version))
    && (a.SetVersion? ==> a.version != "")
    && (a.SetVersion? && s.object'.status.version == "" ==> a.version == bootstrap)
  }

  ghost predicate GrantedRun(s: State, acts: seq<Action>, bootstrap: string)
    requires Run(s, acts)
    decreases |acts|
  {
    acts != [] ==>
      GrantedRun(s, acts[..|acts| - 1], bootstrap) && Granted(After(s, acts[..|acts| - 1]), acts[|acts| - 1], bootstrap)
  }

  /** The masters came up at the bootstrap version, and nothing succeeded yet. */
  ghost predicate Bootstrapped(s: State, bootstrap: string) {
    && s.object' == Object(s.object'.rv, bootstrap, Status("", "", [])) && s.object'.rv < s.clock
    && s.pass.None? && forall n | n in s.masters :: Fixed(s, n, bootstrap)
  }

  /** The master is at `version`, and will stay there. */
  predicate Fixed(s: State, n: string, version: string) {
    n in s.masters && s.masters[n].version == version && s.masters[n].pending <= {version}
  }

  predicate FixedUpTo(s: State, names: seq<string>, i: nat, version: string)
    requires i <= |names|
  {
    forall k | 0 <= k < i :: Fixed(s, names[k], version)
  }

  predicate AllFixed(s: State, names: seq<string>, version: string) {
    FixedUpTo(s, names, |names|, version)
  }

  predicate Known(s: State, names: seq<string>) {
    forall k | 0 <= k < |names| :: names[k] in s.masters
  }

  /** The pass is between its two status writes. */
  predicate Updating(p: Pass) {
    !p.Listing? && !(p.Recording? && !p.done)
  }

  /** How far the pass has come through its list. */
  predicate Place(s: State, p: Pass) {
    var nodes := p.inst.status.nodes;
    match p
    case Listing(_) => true
    case Recording(_, done) => if done then AllFixed(s, nodes, p.inst.version) else Known(s, nodes)
    case Provisioning(_) => Known(s, nodes)
    case Checking(_, i) => i <= |nodes| && FixedUpTo(s, nodes, i, p.inst.version)
    case Commanding(_, i) => i < |nodes| && FixedUpTo(s, nodes, i, p.inst.version)
    case Waiting(_, i) => i < |nodes| && FixedUpTo(s, nodes, i, p.inst.version)
    case Awaiting(_) => AllFixed(s, nodes, p.inst.version)
  }

  predicate PassTruthful(s: State, p: Pass) {
    && p.inst.rv <= s.object'.rv
    && (p.inst.rv == s.object'.rv ==> p.inst.version == s.object'.version)
    && (if p.Recording? && p.done then
          p.inst.status == Status(p.inst.version, SUCCEEDED, p.inst.status.nodes)
        else
          p.inst.status.version == s.object'.status.version && p.inst.version != p.inst.status.version)
    && (p.Recording? && !p.done ==> p.inst.status.state == UPDATING)
    && (Updating(p) ==> s.object'.status.state == UPDATING)
    && OutstandingOnly(s, p.inst.version)
    && Place(s, p)
  }

  /** Before the first success only the bootstrap version is wanted, and all masters are at it for good; later no
      version is empty. An empty bootstrap version stands for an empty version throughout. */
  ghost predicate Versioned(s: State, bootstrap: string) {
    if bootstrap == "" then
      s.object'.version == "" && (s.pass.Some? ==> s.pass.value.inst.version == "")
    else
      && s.object'.version != "" && (s.pass.Some? ==> s.pass.value.inst.version != "")
      && (s.object'.status.version == "" ==>
          && s.object'.version == bootstrap
          && (s.pass.Some? ==> s.pass.value.inst.version == bootstrap)
          && forall n | n in s.masters :: Fixed(s, n, bootstrap))
  }

  ghost predicate Truthful(s: State, bootstrap: string) {
    && s.object'.rv < s.clock && Versioned(s, bootstrap)
    && (s.object'.status.state == SUCCEEDED ==> AllFixed(s, s.object'.status.nodes, s.object'.status.version))
    && (s.pass.Some? ==> PassTruthful(s, s.pass.value))
  }

  lemma MasterStepTruthful(s: State, a: Action, bootstrap: string)
    requires Truthful(s, bootstrap) && s.pass.Some? && PassEnabled(s, s.pass.value, a)
    requires a.Check? || a.Command? || a.Observe?
    ensures Truthful(PassStep(s, s.pass.value, a), bootstrap)
  {
    match a
    case Check =>
    case Command(m) =>
    case Observe(m) =>
  }

  lemma PassStepTruthful(s: State, a: Action, bootstrap: string)
    requires Truthful(s, bootstrap) && s.pass.Some? && PassEnabled(s, s.pass.value, a)
    ensures Truthful(PassStep(s, s.pass.value, a), bootstrap)
  {
    if a.Check? || a.Command? || a.Observe? {
      MasterStepTruthful(s, a, bootstrap);
    } else {
      match a
      case Record =>
      case Provision(joined) =>
      case _ =>
    }
  }

  lemma LandTruthful(s: State, a: Action, bootstrap: string)
    requires Truthful(s, bootstrap) && Enabled(s, a) && (a.Land? || a.Lose?)
    ensures Truthful(Apply(s, a), bootstrap)
  {}

  lemma StartTruthful(s: State, bootstrap: string)
    requires Truthful(s, bootstrap) && s.pass.None?
    requires s.object'.version != s.object'.status.version ==> OutstandingOnly(s, s.object'.version)
    ensures Truthful(Apply(s, Start), bootstrap)
  {}

  lemma TruthfulStep(s: State, a: Action, bootstrap: string)
    requires Truthful(s, bootstrap) && Enabled(s, a) && Granted(s, a, bootstrap) && (bootstrap != "" || !a.SetVersion?)
    ensures Truthful(Apply(s, a), bootstrap)
  {
    match a
    case SetVersion(_) =>
    case Land(_, _) => LandTruthful(s, a, bootstrap);
    case Lose(_, _) => LandTruthful(s, a, bootstrap);
    case Start => StartTruthful(s, bootstrap);
    case _ => PassStepTruthful(s, a, bootstrap);
  }

  lemma {:induction false} TruthfulRun(s: State, acts: seq<Action>, bootstrap: string)
    requires Bootstrapped(s, bootstrap) && bootstrap != "" && Run(s, acts) && GrantedRun(s, acts, bootstrap)
    ensures Truthful(After(s, acts), bootstrap)
    decreases |acts|
  {
    if acts != [] {
      var front := acts[..|acts| - 1];
      TruthfulRun(s, front, bootstrap);
      TruthfulStep(After(s, front), acts[|acts| - 1], bootstrap);
    }
  }

  /** Over every granted run, with failures at any call, retries while a command is outstanding, and the version
      changed at any time after the first success, back included: a stored "Succeeded" means that every listed
      master is at the stored version. */
  lemma SucceededIsHonest(s: State, acts: seq<Action>, bootstrap: string)
    requires Bootstrapped(s, bootstrap) && bootstrap != "" && Run(s, acts) && GrantedRun(s, acts, bootstrap)
    ensures Honest(After(s, acts))
  {
    TruthfulRun(s, acts, bootstrap);
    TruthfulIsHonest(After(s, acts), bootstrap);
  }

  lemma TruthfulIsHonest(end: State, bootstrap: string)
    requires Truthful(end, bootstrap)
    ensures Honest(end)
  {
    if end.object'.status.state == SUCCEEDED {
      forall n | n in end.object'.status.nodes
        ensures n in end.masters && end.masters[n].version == end.object'.status.version
      {
        var k :| 0 <= k < |end.object'.status.nodes| && end.object'.status.nodes[k] == n;
        assert Fixed(end, end.object'.status.nodes[k], end.object'.status.version);
      }
    }
  }

  // ---------- Where honesty ends ----------

  predicate OnlyLands(a: Action) { a.Land? || a.Lose? }

  ghost predicate StaysHonest(s: State) {
    forall acts | Run(s, acts) && (forall a | a in acts :: OnlyLands(a)) :: Honest(After(s, acts))
  }

  lemma {:induction false} FixedLasts(s: State, acts: seq<Action>, n: string, version: string)
    requires Fixed(s, n, version) && Run(s, acts) && forall a | a in acts :: OnlyLands(a)
    ensures Fixed(After(s, acts), n, version) && After(s, acts).object' == s.object'
    decreases |acts|
  {
    if acts != [] {
      FixedLasts(s, acts[..|acts| - 1], n, version);
      assert acts[|acts| - 1] in acts;
    }
  }

  lemma {:induction false} LandsKeepObject(s: State, acts: seq<Action>)
    requires Run(s, acts) && forall a | a in acts :: OnlyLands(a)
    ensures After(s, acts).object' == s.object'
    decreases |acts|
  {
    if acts != [] {
      LandsKeepObject(s, acts[..|acts| - 1]);
      assert acts[|acts| - 1] in acts;
    }
  }

  /** A success that was stored stays true, whatever commands land later, exactly when every listed master is at
      the version and no command for another version is outstanding for it. */
  lemma SuccessLastsExactly(s: State)
    requires s.object'.status.state == SUCCEEDED
    ensures StaysHonest(s) <==> AllFixed(s, s.object'.status.nodes, s.object'.status.version)
  {
    var names, version := s.object'.status.nodes, s.object'.status.version;
    if AllFixed(s, names, version) {
      forall acts | Run(s, acts) && (forall a | a in acts :: OnlyLands(a))
        ensures Honest(After(s, acts))
      {
        LandsKeepObject(s, acts);
        forall n | n in names ensures Fixed(After(s, acts), n, version) {
          var k :| 0 <= k < |names| && names[k] == n;
          FixedLasts(s, acts, names[k], version);
        }
      }
    } else {
      var k :| 0 <= k < |names| && !Fixed(s, names[k], version);
      if StaysHonest(s) {
        assert Run(s, []) && Honest(After(s, []));
        assert names[k] in names;
        var v :| v in s.masters[names[k]].pending && v != version;
        LandingBreaks(s, names[k], v);
      }
    }
  }

  lemma LandingBreaks(s: State, n: string, v: string)
    requires s.object'.status.state == SUCCEEDED && n in s.object'.status.nodes
    requires n in s.masters && v in s.masters[n].pending && v != s.object'.status.version
    ensures !StaysHonest(s)
  {
    var a := Land(n, v);
    RunExtends(s, [], a);
    assert [] + [a] == [a];
    assert !Honest(After(s, [a]));
  }

  // ---------- A success that does not last ----------

  ghost predicate Leads(s: State, acts: seq<Action>, t: State) {
    Run(s, acts) && After(s, acts) == t
  }

  ghost predicate Reaches(s: State, t: State) {
    exists acts :: Leads(s, acts, t)
  }

  lemma Onward(s: State, t: State, a: Action, t': State)
    requires Reaches(s, t) && Enabled(t, a) && Apply(t, a) == t'
    ensures Reaches(s, t')
  {
    var acts :| Leads(s, acts, t);
    RunExtends(s, acts, a);
    assert Leads(s, acts + [a], t');
  }

  /** One control plane with the single master "m". */
  function Single(object': Object, master: Master, pass: Option<Pass>): State {
    State(object'.rv + 1, object', map["m" := master], pass)
  }

  lemma ReachRecorded(s: State, inst: Object, master: Master)
    requires Reaches(s, Single(inst, master, None)) && inst.status.version != inst.version
    ensures var listed := inst.(status := inst.status.(nodes := ["m"], state := UPDATING));
      Reaches(s, Single(inst, master, Some(Recording(listed, false))))
  {
    var t1 := Single(inst, master, Some(Listing(inst)));
    var listed := inst.(status := inst.status.(nodes := ["m"], state := UPDATING));
    Onward(s, Single(inst, master, None), Start, t1);
    Onward(s, t1, ListMasters(["m"]), Single(inst, master, Some(Recording(listed, false))));
  }

  lemma ReachProvisioned(s: State, inst: Object, stored: Object, master: Master)
    requires Reaches(s, Single(inst, master, None)) && inst.status.version != inst.version
    requires var status := inst.status.(nodes := ["m"], state := UPDATING);
      stored == inst.(status := status, rv := if status == inst.status then inst.rv else inst.rv + 1)
    ensures Reaches(s, Single(stored, master, Some(if Upgrades(stored) then Checking(stored, 0) else Awaiting(stored))))
  {
    var listed := inst.(status := stored.status);
    ReachRecorded(s, inst, master);
    var t1 := Single(stored, master, Some(Provisioning(stored)));
    Onward(s, Single(inst, master, Some(Recording(listed, false))), Record, t1);
    assert PassStep(t1, t1.pass.value, Provision({})).masters == t1.masters;
    Onward(s, t1, Provision({}),
      Single(stored, master, Some(if Upgrades(stored) then Checking(stored, 0) else Awaiting(stored))));
  }

  lemma ReachCommanded(s: State, inst: Object, master: Master, commanded: Master)
    requires inst.status.nodes == ["m"] && master.version != inst.version
    requires commanded == master.(pending := master.pending + {inst.version})
    requires Reaches(s, Single(inst, master, Some(Checking(inst, 0))))
    ensures Reaches(s, Single(inst, commanded, Some(Waiting(inst, 0))))
  {
    var t1 := Single(inst, master, Some(Commanding(inst, 0)));
    Onward(s, Single(inst, master, Some(Checking(inst, 0))), Check, t1);
    var t2 := Single(inst, commanded, Some(Waiting(inst, 0)));
    assert t1.masters["m" := commanded] == t2.masters;
    Onward(s, t1, Command("m"), t2);
  }

  lemma ReachSucceeded(s: State, inst: Object, master: Master)
    requires Reaches(s, Single(inst, master, Some(Awaiting(inst)))) && inst.status.state == UPDATING
    ensures var status := Status(inst.version, SUCCEEDED, inst.status.nodes);
      Reaches(s, Single(Object(inst.rv + 1, inst.version, status), master, None))
  {
    var done := inst.(status := Status(inst.version, SUCCEEDED, inst.status.nodes));
    var t1 := Single(inst, master, Some(Recording(done, true)));
    Onward(s, Single(inst, master, Some(Awaiting(inst))), NodesReady, t1);
    Onward(s, t1, Record, Single(done.(rv := inst.rv + 1), master, None));
  }

  lemma ReachLanded(s: State, inst: Object, version: string, pending: set<string>, landed: Master, pass: Option<Pass>)
    requires Reaches(s, Single(inst, Master(version, pending), pass)) && landed.version in pending
    requires landed.pending == pending - {landed.version}
    ensures Reaches(s, Single(inst, landed, pass))
  {
    var t := Single(inst, Master(version, pending), pass);
    assert t.masters["m" := landed] == map["m" := landed];
    Onward(s, t, Land("m", landed.version), Single(inst, landed, pass));
  }

  lemma LateCommandFails(s: State)
    requires Reaches(s, Single(Object(2, "1", Status("1", SUCCEEDED, ["m"])), Master("1", {}), None))
    ensures Reaches(s, Single(Object(4, "2", Status("1", UPDATING, ["m"])), Master("1", {"2"}), None))
  {
    var was := Status("1", SUCCEEDED, ["m"]);
    var inst := Object(4, "2", Status("1", UPDATING, ["m"]));
    Onward(s, Single(Object(2, "1", was), Master("1", {}), None), SetVersion("2"),
      Single(Object(3, "2", was), Master("1", {}), None));
    ReachProvisioned(s, Object(3, "2", was), inst, Master("1", {}));
    ReachCommanded(s, inst, Master("1", {}), Master("1", {"2"}));
    Onward(s, Single(inst, Master("1", {"2"}), Some(Waiting(inst, 0))), Abort, Single(inst, Master("1", {"2"}), None));
  }

  /** The state "Updating" and the list are stored already: recording them again writes nothing. */
  lemma LateCommandOvertaken(s: State, inst: Object)
    requires Reaches(s, Single(Object(4, "2", Status("1", UPDATING, ["m"])), Master("1", {"2"}), None))
    requires inst == Object(5, "3", Status("1", UPDATING, ["m"]))
    ensures Reaches(s, Single(inst, Master("1", {"2", "3"}), Some(Waiting(inst, 0))))
  {
    Onward(s, Single(inst.(rv := 4, version := "2"), Master("1", {"2"}), None), SetVersion("3"),
      Single(inst, Master("1", {"2"}), None));
    ReachProvisioned(s, inst, inst, Master("1", {"2"}));
    ReachCommanded(s, inst, Master("1", {"2"}), Master("1", {"2", "3"}));
  }

  lemma LateCommandLands(s: State, inst: Object)
    requires Reaches(s, Single(inst, Master("1", {"2", "3"}), Some(Waiting(inst, 0))))
    requires inst == Object(5, "3", Status("1", UPDATING, ["m"]))
    ensures Reaches(s, Single(Object(6, "3", Status("3", SUCCEEDED, ["m"])), Master("2", {}), None))
  {
    var waiting := Some(Waiting(inst, 0));
    ReachLanded(s, inst, "1", {"2", "3"}, Master("3", {"2"}), waiting);
    var t := Single(inst, Master("3", {"2"}), Some(Checking(inst, 1)));
    Onward(s, Single(inst, Master("3", {"2"}), waiting), Observe("m"), t);
    Onward(s, t, Check, Single(inst, Master("3", {"2"}), Some(Awaiting(inst))));
    ReachSucceeded(s, inst, Master("3", {"2"}));
    ReachLanded(s, Object(6, "3", Status("3", SUCCEEDED, ["m"])), "3", {"2"}, Master("2", {}), None);
  }

  /** Without that grant honesty is lost in a run: an upgrade to "2" fails after its command was accepted, the
      version moves on to "3" and succeeds, and then the first command lands. */
  lemma LateCommandBreaksHonesty()
    ensures exists s, t :: Bootstrapped(s, "1") && Reaches(s, t) && t.object'.status.state == SUCCEEDED && !Honest(t)
  {
    var s := Single(Object(0, "1", Status("", "", [])), Master("1", {}), None);
    assert Leads(s, [], s);
    var first := Object(1, "1", Status("", UPDATING, ["m"]));
    ReachProvisioned(s, s.object', first, Master("1", {}));
    ReachSucceeded(s, first, Master("1", {}));
    LateCommandFails(s);
    var inst := Object(5, "3", Status("1", UPDATING, ["m"]));
    LateCommandOvertaken(s, inst);
    LateCommandLands(s, inst);
    var t := Single(Object(6, "3", Status("3", SUCCEEDED, ["m"])), Master("2", {}), None);
    assert "m" in t.object'.status.nodes && t.masters["m"].version != "3";
    assert Bootstrapped(s, "1") && Reaches(s, t) && t.object'.status.state == SUCCEEDED && !Honest(t);
  }

  // ---------- A version that is changed back ----------

  /** The stored version is wanted again, the state reads "Updating", and a pass that is still running will find its
      writes refused. */
  ghost predicate ChangedBack(s: State, status: Status) {
    && s.object'.status == status && s.object'.version == status.version
    && (s.pass.Some? ==> s.pass.value.inst.rv < s.object'.rv)
  }

  lemma {:induction false} ChangedBackLasts(s: State, acts: seq<Action>, status: Status)
    requires ChangedBack(s, status) && Run(s, acts) && forall a | a in acts :: !a.SetVersion?
    ensures ChangedBack(After(s, acts), status)
    decreases |acts|
  {
    if acts != [] {
      ChangedBackLasts(s, acts[..|acts| - 1], status);
      assert acts[|acts| - 1] in acts;
    }
  }

  /** Whatever pass is in flight: when the version is changed back to the stored one while the state reads "Updating",
      no continuation reports a success, for the running pass cannot write and every later one returns at once. The
      status stays as it is for as long as the version does. */
  lemma ChangedBackStaysUpdating(s: State, acts: seq<Action>)
    requires Current(s) && s.object'.status.state == "Updating"
    requires Run(s, [SetVersion(s.object'.status.version)] + acts) && forall a | a in acts :: !a.SetVersion?
    ensures After(s, [SetVersion(s.object'.status.version)] + acts).object'.status == s.object'.status
  {
    var back := SetVersion(s.object'.status.version);
    RunSplits(s, back, acts);
    ChangedBackLasts(Apply(s, back), acts, s.object'.status);
  }

  lemma {:induction false} RunSplits(s: State, a: Action, acts: seq<Action>)
    requires Run(s, [a] + acts)
    ensures Enabled(s, a) && Run(Apply(s, a), acts) && After(s, [a] + acts) == After(Apply(s, a), acts)
    decreases |acts|
  {
    var all := [a] + acts;
    if acts == [] {
      assert all == [a] && [a][..0] == [];
      assert Run(s, []) && After(s, []) == s;
    } else {
      assert all[..|all| - 1] == [a] + acts[..|acts| - 1];
      RunSplits(s, a, acts[..|acts| - 1]);
    }
  }

  // ---------- The upgrade frontier ----------

  /** The target stays, and every listing gives the same masters in the same order. */
  predicate FixedTarget(a: Action, list: seq<string>) {
    && !a.SetVersion?
    && (a.ListMasters? ==> a.names == list)
  }

  ghost predicate Commanded(acts: seq<Action>, n: string) {
    Command(n) in acts
  }

  /** In list order: `f` masters at the target, then at most one that was commanded, then none that were. */
  ghost predicate FrontierAt(s: State, acts: seq<Action>, list: seq<string>, target: string, f: nat) {
      && f <= |list|
      && (forall k | 0 <= k < f :: list[k] in s.masters && s.masters[list[k]].version == target)
      && (forall k | f < k < |list| :: !Commanded(acts, list[k]))
  }

  ghost predicate Frontier(s: State, acts: seq<Action>, list: seq<string>, target: string) {
    exists f: nat :: FrontierAt(s, acts, list, target, f)
  }

  /** A commanded master has only masters at the target before it, and the pass stands behind such masters. */
  ghost predicate Ordered(s: State, acts: seq<Action>, list: seq<string>, target: string) {
    && s.object'.version == target
    && (forall n | n in s.masters :: s.masters[n].pending <= {target})
    && (forall j | 0 <= j < |list| && Commanded(acts, list[j]) :: FixedUpTo(s, list, j, target))
    && (s.pass.Some? ==>
        var p := s.pass.value;
        && p.inst.version == target && (p.Listing? || p.inst.status.nodes == list)
        && match p {
          case Checking(_, i) => i <= |list| && FixedUpTo(s, list, i, target)
          case Commanding(_, i) => i < |list| && FixedUpTo(s, list, i, target)
          case Waiting(_, i) => i < |list| && FixedUpTo(s, list, i, target)
          case _ => true
        })
  }

  predicate Distinct(list: seq<string>) {
    forall i, j | 0 <= i < j < |list| :: list[i] != list[j]
  }

  lemma OrderedStep(s: State, acts: seq<Action>, a: Action, list: seq<string>, target: string)
    requires Ordered(s, acts, list, target) && Enabled(s, a) && FixedTarget(a, list) && Distinct(list)
    ensures Ordered(Apply(s, a), acts + [a], list, target)
  {
    assert forall n :: Commanded(acts + [a], n) <==> Commanded(acts, n) || a == Command(n);
    match a
    case Land(_, _) =>
    case Lose(_, _) =>
    case Start =>
    case _ => PassStepOrdered(s, acts, a, list, target);
  }

  lemma PassStepOrdered(s: State, acts: seq<Action>, a: Action, list: seq<string>, target: string)
    requires Ordered(s, acts, list, target) && s.pass.Some? && PassEnabled(s, s.pass.value, a)
    requires FixedTarget(a, list) && Distinct(list)
    requires forall n :: Commanded(acts + [a], n) <==> Commanded(acts, n) || a == Command(n)
    ensures Ordered(PassStep(s, s.pass.value, a), acts + [a], list, target)
  {}

  lemma {:induction false} OrderedRun(s: State, acts: seq<Action>, list: seq<string>, target: string)
    requires Ordered(s, [], list, target) && Distinct(list)
    requires Run(s, acts) && forall a | a in acts :: FixedTarget(a, list)
    ensures Ordered(After(s, acts), acts, list, target)
    decreases |acts|
  {
    if acts != [] {
      var front, a := acts[..|acts| - 1], acts[|acts| - 1];
      assert acts == front + [a];
      OrderedRun(s, front, list, target);
      OrderedStep(After(s, front), front, a, list, target);
    }
  }

  lemma {:induction false} FirstOff(s: State, list: seq<string>, target: string) returns (f: nat)
    ensures f <= |list|
    ensures forall k | 0 <= k < f :: list[k] in s.masters && s.masters[list[k]].version == target
    ensures f < |list| ==> !(list[f] in s.masters && s.masters[list[f]].version == target)
    decreases |list|
  {
    if list == [] {
      f := 0;
    } else {
      var last := |list| - 1;
      f := FirstOff(s, list[..last], target);
      if f == last && list[last] in s.masters && s.masters[list[last]].version == target {
        f := f + 1;
      }
    }
  }

  /** With a fixed target, across failed and retried passes: the frontier is kept. It starts wherever no pass runs
      and no command for another version is outstanding. */
  lemma FrontierKept(s: State, acts: seq<Action>, list: seq<string>)
    requires s.pass.None? && Distinct(list)
    requires forall n | n in s.masters :: s.masters[n].pending <= {s.object'.version}
    requires Run(s, acts) && forall a | a in acts :: FixedTarget(a, list)
    ensures Frontier(After(s, acts), acts, list, s.object'.version)
  {
    var target := s.object'.version;
    OrderedRun(s, acts, list, target);
    var f := FirstOff(After(s, acts), list, target);
    forall k | f < k < |list| ensures !Commanded(acts, list[k]) {
      assert Commanded(acts, list[k]) ==> FixedUpTo(After(s, acts), list, k, target);
    }
    assert FrontierAt(After(s, acts), acts, list, target, f);
  }

  /** The step sees master `n` at the target: the pass steps over it, or has waited for it. */
  predicate Sees(s: State, a: Action, n: string) {
    || a == Observe(n)
    || (a.Check? && s.pass.Some? && s.pass.value.Checking?
        && var p := s.pass.value;
           p.i < |p.inst.status.nodes| && p.inst.status.nodes[p.i] == n
           && n in s.masters && s.masters[n].version == p.inst.version)
  }

  /** Some step of the run saw `n` at the target. */
  ghost predicate Seen(s: State, acts: seq<Action>, n: string)
    requires Run(s, acts)
    decreases |acts|
  {
    acts != [] &&
      (Seen(s, acts[..|acts| - 1], n) || Sees(After(s, acts[..|acts| - 1]), acts[|acts| - 1], n))
  }

  /** `n` is at the target for good, and no pass is about to command it. */
  predicate Done(s: State, list: seq<string>, target: string, n: string) {
    && Fixed(s, n, target)
    && (s.pass.Some? && s.pass.value.Commanding? && s.pass.value.i < |list| ==> list[s.pass.value.i] != n)
  }

  lemma DoneStep(s: State, acts: seq<Action>, a: Action, list: seq<string>, target: string, n: string)
    requires Ordered(s, acts, list, target) && Enabled(s, a) && FixedTarget(a, list) && Distinct(list)
    requires Done(s, list, target, n) || Sees(s, a, n)
    ensures Done(Apply(s, a), list, target, n)
  {}

  lemma {:induction false} SeenIsDone(s: State, acts: seq<Action>, list: seq<string>, target: string, n: string)
    requires Ordered(s, [], list, target) && Distinct(list)
    requires Run(s, acts) && (forall a | a in acts :: FixedTarget(a, list)) && Seen(s, acts, n)
    ensures Done(After(s, acts), list, target, n)
    decreases |acts|
  {
    var front, a := acts[..|acts| - 1], acts[|acts| - 1];
    assert acts == front + [a] && a in acts;
    OrderedRun(s, front, list, target);
    if Seen(s, front, n) {
      SeenIsDone(s, front, list, target, n);
    }
    DoneStep(After(s, front), front, a, list, target, n);
  }

  /** A master once seen at the target is never commanded again. */
  lemma SeenIsNotCommandedAgain(s: State, acts: seq<Action>, list: seq<string>, n: string)
    requires s.pass.None? && Distinct(list)
    requires forall m | m in s.masters :: s.masters[m].pending <= {s.object'.version}
    requires Run(s, acts) && (forall a | a in acts :: FixedTarget(a, list)) && Seen(s, acts, n)
    ensures !Enabled(After(s, acts), Command(n))
  {
    var target := s.object'.version;
    OrderedRun(s, acts, list, target);
    SeenIsDone(s, acts, list, target, n);
  }
}
