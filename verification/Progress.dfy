/** What the operations can still do: from every state a run may stop in, either
    one of the known blocks holds or some further run finishes the operation; and
    every block has an input that reaches it (app-operations/src/runner.rs). */
module Progress {
  import opened Wrappers
  import opened Operations
  import opened Saga
  import opened Runner
  import D = Databases
  import I = SagaInstall
  import U = SagaUninstall

  // ---------------------------------------------------------------- composing runs

  lemma {:induction false} ExecJoins(c: Case, w: World, a: seq<Turn>, b: seq<Turn>)
    requires Exec(c, w, a).Some?
    ensures Exec(c, w, a + b) == Exec(c, Exec(c, w, a).value, b)
    decreases |a|
  {
    hide Do;
    if a == [] {
      assert a + b == b;
    } else {
      assert (a + b)[0] == a[0] && (a + b)[1..] == a[1..] + b;
      ExecJoins(c, Do(c, w, a[0]).value, a[1..], b);
    }
  }

  lemma Joined(c: Case, u: World, v: World, w: World)
    requires Reaches(c, u, v) && Reaches(c, v, w)
    ensures Reaches(c, u, w)
  {
    hide Exec;
    var a :| Exec(c, u, a) == Some(v);
    var b :| Exec(c, v, b) == Some(w);
    ExecJoins(c, u, a, b);
  }

  lemma OneTurn(c: Case, w: World, m: Turn, w': World)
    requires Do(c, w, m) == Some(w')
    ensures Reaches(c, w, w')
  {
    hide Do;
    assert [m][1..] == [];
    assert Exec(c, w', []) == Some(w');
    assert Exec(c, w, [m]) == Some(w');
  }

  lemma Stays(c: Case, w: World)
    ensures Reaches(c, w, w)
  {
    assert Exec(c, w, []) == Some(w);
  }

  /** One more turn of a run that started at w. */
  lemma Then(c: Case, w: World, v: World, m: Turn, v': World)
    requires OnPath(c, v) && Reaches(c, w, v) && Do(c, v, m) == Some(v')
    ensures OnPath(c, v') && Reaches(c, w, v')
  {
    hide Do, OnPath, Reaches;
    OneTurn(c, v, m, v');
    Joined(c, w, v, v');
    Took(c, v, m, v');
  }

  // ---------------------------------------------------------------- one step in flight

  function One(b: bool): nat { if b then 1 else 0 }

  /** The writes a step in flight still owes. */
  function Owed(c: Case, w: World, r: Resource): nat {
    if Removing(w.op) then
      match r
      case AppDatabases => One(w.dirs.active.Some?)
      case RuntimeInstance => One(!w.runtime.Absent?)
      case OidcClient => One(w.delivery.Some?) + One(Live(w.client)) + One(w.secret.Some?)
      case RuntimeActivation => One(w.runtime.Running?)
      case PlatformSnapshot => One(!Omits(w.snapshot, c.app))
    else
      match r
      case AppDatabases => One(w.dirs.active.None?)
      case RuntimeInstance => One(w.runtime.Absent?)
      case OidcClient =>
        var confidential := c.app.oidc.Some? && c.app.oidc.value.confidential;
        One(confidential && w.secret.None?) + One(w.client.None?) + One(confidential && w.delivery.None?)
      case RuntimeActivation => One(!w.runtime.Running?)
      case PlatformSnapshot => One(!Lists(w.snapshot, c.app))
  }

  /** The next of them. */
  function NextWrite(c: Case, w: World, r: Resource): Effect {
    if Removing(w.op) then
      match r
      case AppDatabases => Retain(D.Dirs(None, None, w.dirs.active))
      case RuntimeInstance => Remove
      case OidcClient => if w.delivery.Some? then Withdraw else if Live(w.client) then Revoke else DropSecret
      case RuntimeActivation => Deactivate
      case PlatformSnapshot => SaveSnapshot(Without(w.snapshot, c.app))
    else
      match r
      case AppDatabases => Provision(FreshDatabases(c.app))
      case RuntimeInstance => Prepare
      case OidcClient =>
        if c.app.oidc.Some? && c.app.oidc.value.confidential && w.secret.None? then SaveSecret(0)
        else if w.client.None? then SaveClient(0, "")
        else Deliver
      case RuntimeActivation => Activate
      case PlatformSnapshot => SaveSnapshot(With(w.snapshot, c.app))
  }

  /** No run can finish the operation in the direction it travels. */
  predicate Stuck(c: Case, w: World) {
    match w.op.phase
    case Applying =>
      if w.op.kind == Install then c.app.oidc.Some? && StateAt(w.op.steps, OidcClient) != Applied && !Nameable(c.app)
      else U.ClientFromTheFuture(c)
    case Compensating => D.StateOf(w.dirs) == D.Staged
    case _ => false
  }

  /** What the invariant grants the step in flight, whichever way it travels. */
  predicate Ready(c: Case, w: World, r: Resource) {
    if Removing(w.op) then
      && (r == AppDatabases ==> D.Exclusive(w.dirs) && w.dirs.staging.None?)
      && (r == RuntimeInstance ==> !w.runtime.Running?)
      && (r == OidcClient && Live(w.client) ==> w.client.value.createdAt <= w.op.startedAt)
    else
      && (r == AppDatabases ==> D.ProvisionMay(NoDirs, w.dirs, Files(c.app)))
      && (r == RuntimeInstance || r == RuntimeActivation ==> w.runtime.Absent? || w.runtime.app == c.app)
      && (r == RuntimeActivation ==> !w.runtime.Absent?)
      && (r == OidcClient ==> c.app.oidc.Some? && Nameable(c.app) && I.Registering(c, w))
  }

  lemma OwedFalls(c: Case, w: World, r: Resource)
    requires Ready(c, w, r) && Owed(c, w, r) > 0
    requires w.op.phase == Phase.Applying || w.op.phase == Compensating
    ensures ResourceOf(NextWrite(c, w, r)) == r && Perform(c, w, NextWrite(c, w, r)).Some?
    ensures Owed(c, Perform(c, w, NextWrite(c, w, r)).value, r) < Owed(c, w, r)
    ensures Perform(c, w, NextWrite(c, w, r)).value.op == w.op
  {
  }

  lemma NothingOwed(c: Case, w: World, r: Resource)
    requires Ready(c, w, r) && Owed(c, w, r) == 0 && (w.op.phase == Phase.Applying || w.op.phase == Compensating)
    ensures if Removing(w.op) then Gone(c, w, r) else Reached(c, w, r)
  {
    if r == AppDatabases && !Removing(w.op) { I.FreshMatches(c.app); }
  }

  lemma ReadyInFlight(c: Case, w: World, r: Resource)
    requires OnPath(c, w) && !Stuck(c, w) && InFlight(StateAt(w.op.steps, r))
    ensures Ready(c, w, r)
  {
    hide OnPath;
    if w.op.kind == Uninstall {
      UninstallReady(c, w, r);
    } else if StateAt(w.op.steps, r) == Busy {
      InstallReady(c, w, r);
    } else {
      CompensationReady(c, w, r);
    }
  }

  lemma UninstallReady(c: Case, w: World, r: Resource)
    requires OnPath(c, w) && !Stuck(c, w) && w.op.kind == Uninstall && InFlight(StateAt(w.op.steps, r))
    ensures Ready(c, w, r)
  {
    hide OnPath, StateAt, U.ClientFromTheFuture;
    InFlightPhase(c, w, r);
    RefusedUninstall(c, w);
    if r == RuntimeInstance { StoppedBeforeRemoval(c, w); }
  }

  lemma InstallReady(c: Case, w: World, r: Resource)
    requires OnPath(c, w) && !Stuck(c, w) && w.op.kind == Install && StateAt(w.op.steps, r) == Busy
    ensures Ready(c, w, r)
  {
    hide OnPath, StateAt, I.LaterTouched;
    InFlightPhase(c, w, r);
    BusyHolds(c, w, r);
    if r == RuntimeInstance || r == RuntimeActivation { BusyRuntime(c, w, r); }
    if r == OidcClient { BusyOidc(c, w); }
  }

  lemma CompensationReady(c: Case, w: World, r: Resource)
    requires OnPath(c, w) && !Stuck(c, w) && w.op.kind == Install && StateAt(w.op.steps, r) == Undoing
    ensures Ready(c, w, r)
  {
    hide OnPath, StateAt;
    InFlightPhase(c, w, r);
    RefusedCompensation(c, w);
    if r == RuntimeInstance { StoppedBeforeRemoval(c, w); }
  }

  /** A step being applied belongs to a forward operation, one being undone to a
      compensation. */
  lemma InFlightPhase(c: Case, w: World, r: Resource)
    requires OnPath(c, w) && InFlight(StateAt(w.op.steps, r))
    ensures w.op.phase == if StateAt(w.op.steps, r) == Busy then Phase.Applying else Compensating
    ensures w.op.kind == Uninstall ==> w.op.phase == Phase.Applying
  {
    hide OnPath, RevisionFits, Distinct, Follows, Plan;
    Planned(c, w);
    assert Rank(w.op.phase, w.op.steps[Position(w.op.steps, r).value].state) < 9;
  }

  /** Writes the step owes are made, and nothing else changes. */
  lemma {:induction false} WorkOff(c: Case, w: World, r: Resource) returns (v: World)
    requires OnPath(c, w) && !Stuck(c, w) && InFlight(StateAt(w.op.steps, r))
    ensures OnPath(c, v) && Reaches(c, w, v) && v.op == w.op && !Stuck(c, v)
    ensures if Removing(v.op) then Gone(c, v, r) else Reached(c, v, r)
    decreases Owed(c, w, r)
  {
    hide OnPath, Reaches, Owed, NextWrite, StateAt, Stuck, Ready, Gone, Reached, Perform;
    InFlightPhase(c, w, r);
    ReadyInFlight(c, w, r);
    if Owed(c, w, r) == 0 {
      NothingOwed(c, w, r);
      Stays(c, w);
      v := w;
    } else {
      OwedFalls(c, w, r);
      var e := NextWrite(c, w, r);
      var u := Perform(c, w, e).value;
      NextIsEnabled(c, w, r);
      Stays(c, w);
      Then(c, w, w, Write(e), u);
      v := WorkOff(c, u, r);
      Joined(c, w, u, v);
    }
  }

  lemma NextIsEnabled(c: Case, w: World, r: Resource)
    requires InFlight(StateAt(w.op.steps, r)) && ResourceOf(NextWrite(c, w, r)) == r
    requires Perform(c, w, NextWrite(c, w, r)).Some? && !Stuck(c, w)
    ensures Enabled(w.op, NextWrite(c, w, r))
    ensures !Stuck(c, Perform(c, w, NextWrite(c, w, r)).value)
  {
    hide StateAt, Nameable, With, Without, Lists, Omits;
  }

  // ---------------------------------------------------------------- whole operations

  lemma StepMoves(c: Case, w: World, k: nat, to: StepState) returns (v: World)
    requires OnPath(c, w) && !Stuck(c, w) && k < |w.op.steps| && StepMove(w.op, k, w.op.steps[k].state, to)
    requires to == Applied || to == Undone ==>
      if Removing(w.op) then Gone(c, w, w.op.steps[k].resource) else Reached(c, w, w.op.steps[k].resource)
    ensures OnPath(c, v) && Reaches(c, w, v) && !Stuck(c, v)
    ensures v == w.(op := SetStep(w.op.(revision := w.op.revision + 1), k, to))
  {
    hide OnPath, Reaches, Gone, Reached, Operations.Valid, Follows, StateAt, Apply;
    Planned(c, w);
    StepAccepted(w.op, k, to, w.op.updatedAt);
    v := w.(op := SetStep(w.op.(revision := w.op.revision + 1), k, to));
    Stays(c, w);
    Then(c, w, w, Journal(TransitionTo(to, w.op.steps[k].resource), w.op.updatedAt), v);
    StillFree(c, w, k, to);
  }

  lemma StillFree(c: Case, w: World, k: nat, to: StepState)
    requires OnPath(c, w) && !Stuck(c, w) && k < |w.op.steps| && StepMove(w.op, k, w.op.steps[k].state, to)
    ensures !Stuck(c, w.(op := SetStep(w.op.(revision := w.op.revision + 1), k, to)))
  {
    hide OnPath, RevisionFits, Shape, Follows, Plan, Nameable, U.ClientFromTheFuture;
    Planned(c, w);
    StateAfterMove(w.op.steps, k, to, OidcClient);
    StepStands(c, w, k);
  }

  lemma PhaseMoves(c: Case, w: World, t: Transition) returns (v: World)
    requires OnPath(c, w)
    requires (t == Commit && w.op.phase == Phase.Applying && AllIn(w.op.steps, {Applied}))
      || (t == FinishUndo && w.op.phase == Compensating && AllIn(w.op.steps, {Pending, Undone}))
    ensures OnPath(c, v) && Reaches(c, w, v) && Terminal(v.op)
    ensures v.op.phase == (if t == Commit then Committed else Compensated) && v == w.(op := v.op)
  {
    hide OnPath, Reaches, Operations.Valid, Follows;
    Planned(c, w);
    PhaseAccepted(w.op, t, w.op.updatedAt);
    v := w.(op := Apply(w.op, t, w.op.updatedAt).value);
    Stays(c, w);
    Then(c, w, w, Journal(t, w.op.updatedAt), v);
  }

  /** Every step is applied and the commit alone is missing. */
  lemma {:induction false} Forward(c: Case, w: World, k: nat) returns (v: World)
    requires OnPath(c, w) && w.op.phase == Phase.Applying && !Stuck(c, w)
    requires k <= |w.op.steps| && forall i :: 0 <= i < k ==> w.op.steps[i].state == Applied
    ensures OnPath(c, v) && Reaches(c, w, v) && !Stuck(c, v)
    ensures v.op.phase == Phase.Applying && v.op.kind == w.op.kind && AllIn(v.op.steps, {Applied})
    decreases |w.op.steps| - k, if k < |w.op.steps| && w.op.steps[k].state == Pending then 1 else 0
  {
    hide OnPath, Reaches, Stuck, Gone, Reached, StateAt;
    if k == |w.op.steps| {
      Stays(c, w);
      v := w;
    } else {
      StepStands(c, w, k);
      var s := w.op.steps[k].state;
      var u := w;
      if s == Applied {
        v := Forward(c, w, k + 1);
      } else if s == Pending {
        u := StepMoves(c, w, k, Busy);
        v := Forward(c, u, k);
        Joined(c, w, u, v);
      } else {
        var done := WorkOff(c, w, w.op.steps[k].resource);
        u := StepMoves(c, done, k, Applied);
        Joined(c, w, done, u);
        v := Forward(c, u, k + 1);
        Joined(c, w, u, v);
      }
    }
  }

  lemma {:induction false} Backward(c: Case, w: World, k: nat) returns (v: World)
    requires OnPath(c, w) && w.op.phase == Compensating && !Stuck(c, w) && k <= |w.op.steps|
    requires forall i :: k <= i < |w.op.steps| ==> w.op.steps[i].state == Pending || w.op.steps[i].state == Undone
    ensures OnPath(c, v) && Reaches(c, w, v) && v.op.phase == Compensated
    decreases k, if k > 0 && k <= |w.op.steps| && w.op.steps[k - 1].state == UndoPending then 1 else 0
  {
    hide OnPath, Reaches, Stuck, Gone, Reached, StateAt;
    if k == 0 {
      v := PhaseMoves(c, w, FinishUndo);
    } else {
      StepStands(c, w, k - 1);
      var s := w.op.steps[k - 1].state;
      var u := w;
      if s == Pending || s == Undone {
        v := Backward(c, w, k - 1);
      } else if s == UndoPending {
        u := StepMoves(c, w, k - 1, Undoing);
        v := Backward(c, u, k);
        Joined(c, w, u, v);
      } else {
        var done := WorkOff(c, w, w.op.steps[k - 1].resource);
        u := StepMoves(c, done, k - 1, Undone);
        Joined(c, w, done, u);
        v := Backward(c, u, k - 1);
        Joined(c, w, u, v);
      }
    }
  }

  /** From every state any run may stop in, an operation that is not blocked can
      be brought to the end of an uninterrupted one, in the direction it was
      travelling. */
  lemma CanFinish(c: Case, w: World) returns (v: World)
    requires OnPath(c, w) && !Stuck(c, w)
    ensures Reaches(c, w, v) && Finished(c, v)
    ensures w.op.phase == Phase.Applying ==> v.op.phase == Committed
    ensures w.op.phase == Compensating ==> v.op.phase == Compensated
  {
    hide OnPath, Reaches, Stuck, Finished;
    match w.op.phase {
      case Applying =>
        var u := Forward(c, w, 0);
        v := PhaseMoves(c, u, Commit);
        Joined(c, w, u, v);
      case Compensating => v := Backward(c, w, |w.op.steps|);
      case _ =>
        Stays(c, w);
        v := w;
    }
    FinishedWorld(c, v);
  }

  /** The end of an uninterrupted operation, reached in the direction of travel. */
  ghost predicate Ends(c: Case, w: World, v: World) {
    && Reaches(c, w, v) && Finished(c, v)
    && (w.op.phase == Phase.Applying ==> v.op.phase == Committed)
    && (w.op.phase == Compensating ==> v.op.phase == Compensated)
  }

  /** An install that declares a client under an unusable name never commits. */
  lemma UnusableNameNeverCommits(c: Case, w: World)
    requires OnPath(c, w) && w.op.kind == Install && c.app.oidc.Some? && !Nameable(c.app)
    ensures w.op.phase != Committed
  {
    hide OnPath, Nameable, Operations.Valid;
    if w.op.phase == Committed {
      FinishedWorld(c, w);
      RegisteredIsNameable(c, w);
    }
  }

  lemma StuckNeverEnds(c: Case, w: World, v: World)
    requires OnPath(c, w) && Stuck(c, w)
    ensures !Ends(c, w, v)
  {
    hide OnPath, Finished, Nameable, I.Inv, U.Inv, StateAt, U.ClientFromTheFuture;
    if Ends(c, w, v) {
      assert OnPath(c, v) by { Onwards(c, w, v); }
      Keeps(c, w);
      Keeps(c, v);
      if w.op.phase == Compensating {
        Planned(c, w);
        var run :| Exec(c, w, run) == Some(v);
        I.StagedCompensationNeverFinishes(c, w, run);
      } else if w.op.kind == Install {
        UnusableNameNeverCommits(c, v);
      } else {
        FinishedWorld(c, v);
      }
    }
  }

  lemma Onwards(c: Case, w: World, v: World)
    requires OnPath(c, w) && Reaches(c, w, v)
    ensures OnPath(c, v)
  {
    hide Reaches, Started;
    Joined(c, c.start, w, v);
  }

  /** From every state any run may stop in, the operation can be brought to its end
      in the direction it travels if and only if it is not stuck: its name usable,
      no client from the future, no databases left staged. */
  lemma FinishesExactly(c: Case, w: World)
    requires OnPath(c, w)
    ensures (exists v :: Ends(c, w, v)) <==> !Stuck(c, w)
  {
    hide OnPath, Stuck, Ends;
    if Stuck(c, w) {
      forall v ensures !Ends(c, w, v) { StuckNeverEnds(c, w, v); }
    } else {
      var v := CanFinish(c, w);
      assert Ends(c, w, v) by { EndsThere(c, w, v); }
    }
  }

  lemma EndsThere(c: Case, w: World, v: World)
    requires Reaches(c, w, v) && Finished(c, v)
    requires w.op.phase == Phase.Applying ==> v.op.phase == Committed
    requires w.op.phase == Compensating ==> v.op.phase == Compensated
    ensures Ends(c, w, v)
  {
  }

  /** What recovery calls unblocked, for some state in memory and some address,
      is never stuck. */
  lemma UnblockedIsFree(c: Case, w: World, live: Platform, address: Option<string>)
    requires !Blocked(c, w, live, address)
    ensures !Stuck(c, w)
  {
    hide Admits, Releases, Nameable, StateAt, U.ClientFromTheFuture;
  }

  // ---------------------------------------------------------------- every block is reached

  lemma FirstStep(c: Case)
    requires Started(c) && I.Starts(c, c.start) && c.app.databases != []
    ensures OnPath(c, c.start) && |c.start.op.steps| > 0
    ensures c.start.op.steps[0] == Step(AppDatabases, Pending)
      && !Stuck(c, c.start) == !(c.app.oidc.Some? && !Nameable(c.app))
  {
    hide Nameable, Operations.Valid;
    assert Exec(c, c.start, []) == Some(c.start);
    assert Plan(c.app, Install)[0] == AppDatabases;
    NothingApplied(c.start.op.steps, OidcClient);
  }

  /** Any install with databases can be stopped while they are half built and
      then turned round: a compensation that never ends. */
  lemma StagedCompensationHappens(c: Case) returns (w: World)
    requires Started(c) && I.Starts(c, c.start) && c.app.databases != []
    ensures OnPath(c, w) && I.StagedBehind(w)
  {
    hide OnPath, Operations.Valid, Follows, Apply, Stuck;
    FirstStep(c);
    Planned(c, c.start);
    var start := c.start;
    StepAccepted(start.op, 0, Busy, start.op.updatedAt);
    var begun := start.(op := SetStep(start.op.(revision := start.op.revision + 1), 0, Busy));
    Took(c, start, Journal(Begin(AppDatabases), start.op.updatedAt), begun);
    StepStands(c, begun, 0);
    var staged := begun.(dirs := D.Dirs(Some(map[]), None, None));
    Took(c, begun, Write(Provision(staged.dirs)), staged);
    Planned(c, staged);
    PhaseAccepted(staged.op, BeginUndo, staged.op.updatedAt);
    w := staged.(op := Apply(staged.op, BeginUndo, staged.op.updatedAt).value);
    ApplyAdvances(staged.op, BeginUndo, staged.op.updatedAt);
    TurnedRound(staged.op, w.op);
    Took(c, staged, Journal(BeginUndo, staged.op.updatedAt), w);
  }

  /** Any app installed with a client at a positive time can be uninstalled by a
      platform whose clock went back: an uninstall that never ends. */
  lemma FutureClientHappens(c: Case, w: World) returns (u: Case)
    requires Started(c) && I.Starts(c, c.start) && I.IsInstalled(c, w) && c.app.oidc.Some? && c.start.op.startedAt > 0
    ensures OnPath(u, u.start) && u.app == c.app && u.start == w.(op := u.start.op) && U.ClientFromTheFuture(u)
  {
    hide Operations.Valid, Plan, Fresh, OnPath;
    var op := Operation(0, Uninstall, Phase.Applying, Fresh(Plan(c.app, Uninstall)), 0, 0, 0);
    u := Case(c.app, w.(op := op));
    InstalledIsEstablished(c, w);
    assert Established(c.app, u.start);
    NewUninstall(u);
  }

  /** An app whose display name holds a control character inside, as the manifest
      allows, is blocked from the start if it declares a client. */
  lemma UnusableNameHappens(c: Case, live: Platform, address: Option<string>)
    requires Started(c) && I.Starts(c, c.start) && c.app.oidc.Some? && c.app.displayName == "a\nb"
    ensures OnPath(c, c.start) && Blocked(c, c.start, live, address) && Stuck(c, c.start)
  {
    hide Operations.Valid, Plan;
    assert Exec(c, c.start, []) == Some(c.start);
    NothingApplied(c.start.op.steps, OidcClient);
    assert !Nameable(c.app) by { assert c.app.displayName[1] == '\n'; }
  }

  /** Two unfinished installs of one app: once the first has finished, the second
      can neither be recovered nor compensated while the first stays, whatever
      address is resolved. */
  lemma SecondInstallIsBlocked(first: Case, installed: World, second: Case, address: Option<string>)
    returns (w: World, back: World)
    requires I.Starts(first, first.start) && I.IsInstalled(first, installed)
    requires Started(second) && I.Starts(second, second.start) && Omits(installed.snapshot, second.app)
    requires first.app.appId == second.app.appId && first.app.installation != second.app.installation
    ensures OnPath(second, w) && w.snapshot == installed.snapshot && w.op.phase == Phase.Applying
    ensures OnPath(second, back) && back.snapshot == installed.snapshot && back.op.phase == Compensating
    ensures Blocked(second, w, installed.snapshot, address) && Blocked(second, back, installed.snapshot, address)
  {
    hide Operations.Valid, Plan, Apply, OnPath, I.Installed, Own;
    assert OnPath(second, second.start) by { AtStart(second); }
    w := second.start.(snapshot := installed.snapshot);
    BothOmit(second.start.snapshot, installed.snapshot, second.app);
    Took(second, second.start, Foreign(installed.snapshot), w);
    Planned(second, w);
    PhaseAccepted(w.op, BeginUndo, w.op.updatedAt);
    back := w.(op := Apply(w.op, BeginUndo, w.op.updatedAt).value);
    ApplyAdvances(w.op, BeginUndo, w.op.updatedAt);
    TurnedRound(w.op, back.op);
    Took(second, w, Journal(BeginUndo, w.op.updatedAt), back);
    assert first.app.installation in installed.snapshot.apps;
  }

  lemma AtStart(c: Case)
    requires Started(c)
    ensures OnPath(c, c.start)
  {
    assert Exec(c, c.start, []) == Some(c.start);
  }

  /** A registration interrupted after its client was stored is blocked by every
      other address, and by none at all. */
  lemma MovedAddressBlocks(c: Case, w: World, live: Platform, address: Option<string>)
    requires OnPath(c, w) && w.op.kind == Install && StateAt(w.op.steps, OidcClient) == Busy && w.client.Some?
    requires address != Some(w.client.value.redirect)
    ensures Blocked(c, w, live, address) && !Stuck(c, w)
  {
    hide OnPath, StateAt, I.LaterTouched, Admits;
    BusyOidc(c, w);
    InFlightPhase(c, w, OidcClient);
    RegisteredIsNameable(c, w);
  }

  /** The client's turn has come and nothing of it is there. */
  lemma ClientIsNext(c: Case) returns (w: World)
    requires Started(c) && I.Starts(c, c.start) && c.app.databases == [] && c.app.oidc.Some? && Nameable(c.app)
    ensures OnPath(c, w) && !Stuck(c, w) && w.op.kind == Install && w.client.None? && w.secret.None?
    ensures |w.op.steps| > 1 && w.op.steps[1] == Step(OidcClient, Busy)
  {
    hide OnPath, Operations.Valid, Reaches, Nameable, Apply;
    AtStart(c);
    var start := c.start;
    assert start.op.steps[0] == Step(RuntimeInstance, Pending) && start.op.steps[1] == Step(OidcClient, Pending) by {
      assert Plan(c.app, Install)[0] == RuntimeInstance && Plan(c.app, Install)[1] == OidcClient;
    }
    var begun := StepMoves(c, start, 0, Busy);
    StepStands(c, begun, 0);
    var prepared := WorkOff(c, begun, RuntimeInstance);
    var applied := StepMoves(c, prepared, 0, Applied);
    StepStands(c, applied, 1);
    UntouchedClient(c, applied);
    w := StepMoves(c, applied, 1, Busy);
  }

  /** Every install of an app with a public client and no databases passes through
      such a state, under any address it started with. */
  lemma MovedAddressHappens(c: Case, redirect: string) returns (w: World)
    requires Started(c) && I.Starts(c, c.start) && c.app.databases == [] && c.app.oidc.Some? && Nameable(c.app)
    requires !c.app.oidc.value.confidential
    ensures OnPath(c, w) && w.op.kind == Install && StateAt(w.op.steps, OidcClient) == Busy
    ensures w.client.Some? && w.client.value.redirect == redirect
  {
    hide OnPath, Operations.Valid, Reaches, Nameable, Apply, Plan, Fresh;
    var registering := ClientIsNext(c);
    StepStands(c, registering, 1);
    w := registering.(client := Some(BuildClient(c.app, 0, redirect, None, registering.op.startedAt)));
    Took(c, registering, Write(SaveClient(0, redirect)), w);
  }

  lemma UntouchedClient(c: Case, w: World)
    requires OnPath(c, w) && w.op.kind == Install && StateAt(w.op.steps, OidcClient) == Pending
    ensures w.client.None? && w.secret.None?
  {
    hide OnPath, StateAt, I.LaterTouched, Operations.Valid, Follows;
    Keeps(c, w);
    assert I.Holds(c, w, OidcClient, StateAt(w.op.steps, OidcClient), I.LaterTouched(w.op.steps, OidcClient));
  }

  /** Another app that shares a contribution identifier, installed while this
      install was unfinished, blocks it. */
  lemma RivalBlocksInstall(c: Case, rival: App, address: Option<string>) returns (w: World)
    requires Started(c) && I.Starts(c, c.start) && rival.installation != c.app.installation
    requires rival.contributions * c.app.contributions != {}
    ensures OnPath(c, w) && w.snapshot == With(c.start.snapshot, rival)
    ensures Blocked(c, w, w.snapshot, address)
  {
    hide Operations.Valid, Plan, OnPath, Own;
    AtStart(c);
    w := c.start.(snapshot := With(c.start.snapshot, rival));
    OthersOwn(c.start.snapshot, rival, c.app);
    Took(c, c.start, Foreign(w.snapshot), w);
    assert rival.installation in w.snapshot.apps && w.snapshot.apps[rival.installation] == rival;
  }

  lemma OthersOwn(p: Platform, other: App, app: App)
    requires other.installation != app.installation
    ensures Own(With(p, other), app) == Own(p, app)
    ensures Omits(p, app) ==> Omits(With(p, other), app)
  {
    assert Own(With(p, other), app).apps == Own(p, app).apps;
  }

  /** An uninstall that has stored its snapshot and not committed is blocked once
      the same app was installed again, as another installation. */
  lemma TwinBlocksUninstall(c: Case, twin: App, address: Option<string>) returns (w: World)
    requires Started(c) && U.Starts(c, c.start) && !U.ClientFromTheFuture(c)
    requires twin.appId == c.app.appId && twin.installation != c.app.installation
    ensures OnPath(c, w) && w.op.kind == Uninstall && w.op.phase == Phase.Applying && Lists(w.snapshot, twin)
    ensures Blocked(c, w, w.snapshot, address) && !Stuck(c, w)
  {
    hide Operations.Valid, Plan, OnPath, Own, Reaches, Finished, U.ClientFromTheFuture, U.Inv;
    AtStart(c);
    var u := Forward(c, c.start, 0);
    var end := PhaseMoves(c, u, Commit);
    Keeps(c, end);
    FinishedWorld(c, end);
    w := u.(snapshot := With(u.snapshot, twin));
    OthersOwn(u.snapshot, twin, c.app);
    Took(c, u, Foreign(w.snapshot), w);
    assert twin.installation in w.snapshot.apps && w.snapshot.apps[twin.installation] == twin;
  }

  // ---------------------------------------------------------------- one runner at a time

  /** Why one runner at a time is assumed: a runner that stalls before a write its
      step allows, while another takes the install back to the end, brings the
      runtime back when it goes on. The journal refuses its next record, and not
      the write. */
  lemma LateWriteUndoesCompensation(c: Case) returns (u: World, v: World)
    requires Started(c) && I.Starts(c, c.start) && c.app.databases == []
    requires c.app.oidc.Some? ==> Nameable(c.app)
    ensures OnPath(c, u) && Enabled(u.op, Prepare) && Reaches(c, u, v) && Terminal(v.op) && I.Withdrawn(c, v)
    ensures Perform(c, v, Prepare).Some? && !I.Withdrawn(c, Perform(c, v, Prepare).value)
  {
    hide OnPath, Operations.Valid, Reaches, Nameable, Apply;
    AtStart(c);
    var start := c.start;
    assert start.op.steps[0] == Step(RuntimeInstance, Pending) by {
      assert Plan(c.app, Install)[0] == RuntimeInstance;
    }
    u := StepMoves(c, start, 0, Busy);
    StepStands(c, u, 0);
    Planned(c, u);
    PhaseAccepted(u.op, BeginUndo, u.op.updatedAt);
    var back := u.(op := Apply(u.op, BeginUndo, u.op.updatedAt).value);
    ApplyAdvances(u.op, BeginUndo, u.op.updatedAt);
    TurnedRound(u.op, back.op);
    Took(c, u, Journal(BeginUndo, u.op.updatedAt), back);
    OneTurn(c, u, Journal(BeginUndo, u.op.updatedAt), back);
    v := CanFinish(c, back);
    Joined(c, u, back, v);
  }
}
