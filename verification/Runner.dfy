/** The operation runner: the code that drives one install, uninstall or
    compensation through the durable world, and picks it up again after a crash
    (app-operations/src/runner.rs). Every method may be interrupted between any
    two durable writes; each of its exits is a run of the Saga machine. */
module Runner {
  import opened Wrappers
  import opened Operations
  import opened Saga
  import D = Databases
  import G = Registrar
  import I = SagaInstall
  import U = SagaUninstall

  datatype Outcome = Done | Interrupted | Refused

  // ---------------------------------------------------------------- runs of the machine

  /** Another installation of the same app is on the platform. */
  predicate Twin(p: Platform, app: App) {
    exists i :: i in p.apps && i != app.installation && p.apps[i].appId == app.appId
  }

  /** Another installation holds the app's identifier or one of its contribution
      identifiers. */
  predicate Rival(p: Platform, app: App) {
    exists i :: i in p.apps && i != app.installation
      && (p.apps[i].appId == app.appId || p.apps[i].contributions * app.contributions != {})
  }

  /** The in-memory state lets the app be registered, or has it already. */
  predicate Admits(live: Platform, app: App) {
    Lists(live, app) || (app.installation !in live.apps && !Rival(live, app))
  }

  /** The in-memory state lets the app be taken out, or has neither it nor a
      twin of it. */
  predicate Releases(live: Platform, app: App) {
    Lists(live, app) || (app.installation !in live.apps && !Twin(live, app))
  }

  /** What manifest validation grants every operation. */
  predicate Admitted(c: Case) {
    forall i, j :: 0 <= i < j < |c.app.databases| ==> c.app.databases[i] != c.app.databases[j]
  }

  predicate Started(c: Case) {
    Admitted(c) && (I.Starts(c, c.start) || U.Starts(c, c.start))
  }

  ghost predicate OnPath(c: Case, w: World) {
    Started(c) && Reaches(c, c.start, w)
  }

  lemma {:induction false} ExecAppends(c: Case, w: World, run: seq<Turn>, m: Turn)
    requires Exec(c, w, run).Some? && Do(c, Exec(c, w, run).value, m).Some?
    ensures Exec(c, w, run + [m]) == Do(c, Exec(c, w, run).value, m)
    decreases |run|
  {
    hide Do;
    if run == [] {
      assert (run + [m])[1..] == [];
    } else {
      assert (run + [m])[1..] == run[1..] + [m];
      ExecAppends(c, Do(c, w, run[0]).value, run[1..], m);
    }
  }

  lemma Took(c: Case, w: World, m: Turn, w': World)
    requires OnPath(c, w) && Do(c, w, m) == Some(w')
    ensures OnPath(c, w')
  {
    hide Do, Started;
    var run :| Exec(c, c.start, run) == Some(w);
    ExecAppends(c, c.start, run, m);
  }

  lemma Keeps(c: Case, w: World)
    requires OnPath(c, w)
    ensures w.op.kind == c.start.op.kind
    ensures w.op.kind == Install ==> I.Starts(c, c.start) && I.Inv(c, w)
    ensures w.op.kind == Uninstall ==> U.Starts(c, c.start) && U.Inv(c, w)
  {
    hide I.Inv, U.Inv, Exec;
    var run :| Exec(c, c.start, run) == Some(w);
    if I.Starts(c, c.start) {
      I.StartHolds(c, c.start);
      I.RunKeepsInv(c, c.start, run);
      KindOfInstall(c, w);
    } else {
      U.StartHolds(c, c.start);
      U.RunKeepsInv(c, c.start, run);
      KindOfUninstall(c, w);
    }
  }

  lemma KindOfInstall(c: Case, w: World)
    requires I.Inv(c, w)
    ensures w.op.kind == c.start.op.kind == Install
  {
  }

  lemma KindOfUninstall(c: Case, w: World)
    requires U.Inv(c, w)
    ensures w.op.kind == c.start.op.kind == Uninstall
  {
  }

  /** The journal of a run in progress is the planned one. */
  lemma Planned(c: Case, w: World)
    requires OnPath(c, w)
    ensures Operations.Valid(w.op) && Follows(w.op.steps, Plan(c.app, w.op.kind)) && |w.op.steps| <= 5
    ensures w.op.kind == Uninstall ==> w.op.phase != Compensating && w.op.phase != Compensated
  {
    hide Operations.Valid, Follows, OnPath, I.ResourcesHold, I.Starts, U.Starts;
    Keeps(c, w);
    SameLength(w.op.steps, Plan(c.app, w.op.kind));
  }

  lemma SameLength(steps: seq<Step>, plan: seq<Resource>)
    requires Follows(steps, plan)
    ensures |steps| == |plan|
  {
  }

  // ---------------------------------------------------------------- accepted transitions

  function TransitionTo(to: StepState, r: Resource): Transition
    requires to == Busy || to == Applied || to == Undoing || to == Undone
  {
    match to
    case Busy => Begin(r)
    case Applied => Complete(r)
    case Undoing => BeginResourceUndo(r)
    case Undone => CompleteResourceUndo(r)
  }

  /** A step that may move is let move, at any time not before the last. */
  lemma StepAccepted(op: Operation, k: nat, to: StepState, at: nat)
    requires Operations.Valid(op) && k < |op.steps| <= 5 && op.updatedAt <= at
    requires StepMove(op, k, op.steps[k].state, to)
    ensures Apply(op, TransitionTo(to, op.steps[k].resource), at)
      == Ok(SetStep(op.(revision := op.revision + 1, updatedAt := at), k, to))
  {
    hide RevisionFits, Shape;
    RevisionBound(op);
    assert Position(op.steps, op.steps[k].resource) == Some(k);
  }

  lemma PhaseAccepted(op: Operation, t: Transition, at: nat)
    requires Operations.Valid(op) && |op.steps| <= 5 && op.updatedAt <= at
    requires (t == Commit && op.phase == Phase.Applying && AllIn(op.steps, {Applied}))
      || (t == BeginUndo && op.phase == Phase.Applying)
      || (t == FinishUndo && op.phase == Compensating && AllIn(op.steps, {Pending, Undone}))
    ensures Apply(op, t, at).Ok?
  {
    hide RevisionFits, Shape, Distinct;
    RevisionBound(op);
  }

  lemma AnyLaterTime(op: Operation, t: Transition, at: nat)
    requires Apply(op, t, op.updatedAt).Ok? && op.updatedAt <= at
    ensures Apply(op, t, at) == Ok(Apply(op, t, op.updatedAt).value.(updatedAt := at))
  {
  }

  // ---------------------------------------------------------------- the runner

  class Runner {
    var row: Operation
    var target: App
    const databases: D.Provider
    var runtime: Runtime
    var client: Option<Client>
    var secret: Option<nat>
    var delivery: Option<Delivery>
    var snapshot: Platform
    var live: Platform

    /** The app's callback address as the platform resolves it now, if it can.
        Reconfiguring the platform changes it. */
    var address: Option<string>

    constructor (row: Operation, target: App, databases: D.Provider, live: Platform, address: Option<string>)
      ensures this.row == row && this.target == target && this.databases == databases && this.live == live == snapshot
      ensures this.address == address && runtime == Absent && client.None? && secret.None? && delivery.None?
    {
      this.row, this.target, this.databases, this.live, snapshot := row, target, databases, live, live;
      this.address := address;
      runtime, client, secret, delivery := Absent, None, None, None;
    }

    ghost function Durable(): World
      reads this, databases
    {
      World(row, databases.View(target.installation), runtime, client, secret, delivery, snapshot)
    }

    ghost predicate On(c: Case)
      reads this, databases
    {
      c.app == target && OnPath(c, Durable())
    }

    /** Stores one transition, stamped with the clock but never before the last
        one. The write may have landed when its caller is told it failed. */
    method Record(t: Transition, ghost c: Case) returns (out: Outcome)
      requires On(c) && MayRecord(c, Durable(), t) && Apply(row, t, row.updatedAt).Ok?
      modifies this`row
      ensures On(c)
      ensures row == old(row) || Apply(old(row), t, row.updatedAt) == Ok(row)
      ensures row.kind == old(row.kind)
      ensures out == Done ==> row != old(row)
      ensures out != Refused
      ensures databases.steady ==> out != Interrupted
    {
      hide OnPath, Apply, MayRecord;
      var now: nat := *;
      var at := if now < row.updatedAt then row.updatedAt else now;
      if !databases.steady { if * { return Interrupted; } }
      AnyLaterTime(row, t, at);
      ApplyAdvances(row, t, at);
      ghost var before := Durable();
      row := Apply(row, t, at).value;
      Took(c, before, Journal(t, at), Durable());
      if !databases.steady { if * { return Interrupted; } }
      return Done;
    }

    // -------------------------------------------------------------- forward resources

    /** The step is being applied by an install in progress. */
    ghost predicate Applying(r: Resource)
      reads this
    {
      row.kind == Install && row.phase == Phase.Applying && StateAt(row.steps, r) == Busy
    }

    method ProvisionDatabases(ghost c: Case) returns (out: Outcome)
      requires On(c) && Applying(AppDatabases)
      modifies databases
      ensures On(c) && databases.OthersKept(target.installation)
      ensures out == Done ==> Reached(c, Durable(), AppDatabases)
      ensures out != Refused
      ensures databases.steady ==> out != Interrupted
    {
      hide OnPath, D.ProvisionMay, D.ProvisionRefusal, D.FileNames, D.Exclusive, StateAt;
      ghost var before := Durable();
      BusyDatabases(c, before);
      var bindings := Bindings(target);
      var result := databases.ProvisionInstallation(bindings);
      Took(c, before, Write(Provision(Durable().dirs)), Durable());
      match result {
        case Done => return Done;
        case Interrupted => return Interrupted;
        case Refused(_) => return Refused;
      }
    }

    method PrepareRuntime(ghost c: Case) returns (out: Outcome)
      requires On(c) && Applying(RuntimeInstance)
      modifies this`runtime
      ensures On(c)
      ensures out == Done ==> Reached(c, Durable(), RuntimeInstance)
      ensures out != Refused
      ensures databases.steady ==> out != Interrupted
    {
      hide OnPath, StateAt;
      if !databases.steady { if * { return Interrupted; } }
      ghost var before := Durable();
      BusyRuntime(c, before, RuntimeInstance);
      if runtime.Absent? {
        runtime := Prepared(target);
      } else if runtime.app != target {
        return Refused;
      }
      Took(c, before, Write(Prepare), Durable());
      if !databases.steady { if * { return Interrupted; } }
      return Done;
    }

    method ActivateRuntime(ghost c: Case) returns (out: Outcome)
      requires On(c) && Applying(RuntimeActivation)
      modifies this`runtime
      ensures On(c)
      ensures out == Done ==> Reached(c, Durable(), RuntimeActivation)
      ensures out != Refused
      ensures databases.steady ==> out != Interrupted
    {
      hide OnPath, StateAt;
      if !databases.steady { if * { return Interrupted; } }
      ghost var before := Durable();
      BusyRuntime(c, before, RuntimeActivation);
      if runtime.Absent? || runtime.app != target { return Refused; }
      runtime := Running(target);
      Took(c, before, Write(Activate), Durable());
      if !databases.steady { if * { return Interrupted; } }
      return Done;
    }

    /** The registrar's call, over the stored client and secret. */
    method RegisterOrRecover(ghost c: Case) returns (out: Outcome)
      requires On(c) && Applying(OidcClient)
      modifies this`client, this`secret
      ensures On(c)
      ensures out == Done ==> Registered(c, Durable()) && !Unregistrable(target, old(client), address)
      ensures out == Done ==> G.Holds(target, address, client, secret) && client.value.createdAt == row.startedAt
      ensures out == Refused ==> Unregistrable(target, old(client), address)
      ensures client != old(client) ==> client.Some? && Some(client.value.redirect) == address
      ensures databases.steady ==> out != Interrupted
    {
      hide OnPath, StateAt, Nameable, G.Stores, G.Refusable, G.Holds, Registered;
      if !databases.steady { if * { return Interrupted; } }
      ghost var before := Durable();
      BusyOidc(c, before);
      var found, client', secret' := G.Register(target, address, client, secret, row.startedAt, databases.steady);
      Registers(c, before, address, client', secret');
      client, secret := client', secret';
      out := match found case Done => Done case Refused => Refused case Interrupted => Interrupted;
    }

    method DeliverSecret(ghost c: Case) returns (out: Outcome)
      requires On(c) && Applying(OidcClient) && Registered(c, Durable()) && secret.Some?
      modifies this`delivery
      ensures On(c)
      ensures out == Done ==> Delivered(c, Durable())
      ensures out != Refused
      ensures databases.steady ==> out != Interrupted
    {
      hide OnPath, StateAt, Nameable;
      if !databases.steady { if * { return Interrupted; } }
      ghost var before := Durable();
      BusyOidc(c, before);
      var parcel := Delivery(row.id, client.value.id, secret.value);
      if delivery.Some? && delivery.value != parcel { return Refused; }
      delivery := Some(parcel);
      Took(c, before, Write(Deliver), Durable());
      if !databases.steady { if * { return Interrupted; } }
      return Done;
    }

    method SaveSnapshot(staged: Platform, ghost c: Case) returns (out: Outcome)
      requires On(c) && InFlight(StateAt(row.steps, PlatformSnapshot)) && Wanted(target, row, staged)
      modifies this`snapshot
      ensures On(c) && (snapshot == old(snapshot) || snapshot == staged)
      ensures out == Done ==> snapshot == staged
      ensures out != Refused
      ensures databases.steady ==> out != Interrupted
    {
      hide OnPath, StateAt;
      if !databases.steady { if * { return Interrupted; } }
      ghost var before := Durable();
      snapshot := staged;
      Took(c, before, Write(Effect.SaveSnapshot(staged)), Durable());
      if !databases.steady { if * { return Interrupted; } }
      return Done;
    }

    method ApplyResource(r: Resource, staged: Platform, ghost c: Case) returns (out: Outcome)
      requires On(c) && Applying(r) && Wanted(target, row, staged)
      modifies this`runtime, this`client, this`secret, this`delivery, this`snapshot, databases
      ensures On(c) && databases.OthersKept(target.installation)
      ensures snapshot == old(snapshot) || snapshot == staged
      ensures client != old(client) ==> r == OidcClient && client.Some? && Some(client.value.redirect) == address
      ensures out == Done ==> Reached(c, Durable(), r)
      ensures out == Refused ==> r == OidcClient && target.oidc.Some? && Unregistrable(target, old(client), address)
      ensures out == Done && r == OidcClient ==> !Unregistrable(target, old(client), address)
      ensures databases.steady ==> out != Interrupted
    {
      hide OnPath, StateAt, Nameable, D.ProvisionRefusal, Wanted;
      match r {
        case AppDatabases => out := ProvisionDatabases(c);
        case RuntimeInstance => out := PrepareRuntime(c);
        case OidcClient =>
          BusyOidc(c, Durable());
          out := RegisterOrRecover(c);
          if out == Done && secret.Some? {
            out := DeliverSecret(c);
          }
        case RuntimeActivation => out := ActivateRuntime(c);
        case PlatformSnapshot => out := SaveSnapshot(staged, c);
      }
    }

    // -------------------------------------------------------------- resources on the way out

    /** The step is being removed, by an uninstall or by a compensation. */
    ghost predicate Clearing(r: Resource)
      reads this
    {
      Removing(row) && InFlight(StateAt(row.steps, r))
    }

    method RetainDatabases(ghost c: Case) returns (out: Outcome)
      requires On(c) && Clearing(AppDatabases)
      modifies databases
      ensures On(c) && databases.OthersKept(target.installation)
      ensures D.RetainMay(old(Durable().dirs), Durable().dirs)
      ensures out == Done ==> Gone(c, Durable(), AppDatabases)
      ensures out == Refused ==> !D.Exclusive(Durable().dirs) || Durable().dirs.staging.Some?
      ensures databases.steady ==> out != Interrupted
    {
      hide OnPath, StateAt, Removing;
      ghost var before := Durable();
      var result := databases.RetainInstallation(target.installation);
      Took(c, before, Write(Retain(Durable().dirs)), Durable());
      match result {
        case Done => return Done;
        case Interrupted => return Interrupted;
        case Refused(_) => return Refused;
      }
    }

    method DeactivateRuntime(ghost c: Case) returns (out: Outcome)
      requires On(c) && Clearing(RuntimeActivation)
      modifies this`runtime
      ensures On(c)
      ensures out == Done ==> Gone(c, Durable(), RuntimeActivation)
      ensures out != Refused
      ensures databases.steady ==> out != Interrupted
    {
      hide OnPath, StateAt, Removing;
      if !databases.steady { if * { return Interrupted; } }
      ghost var before := Durable();
      if runtime.Running? { runtime := Prepared(runtime.app); }
      Took(c, before, Write(Deactivate), Durable());
      if !databases.steady { if * { return Interrupted; } }
      return Done;
    }

    method RemoveRuntime(ghost c: Case) returns (out: Outcome)
      requires On(c) && Clearing(RuntimeInstance)
      modifies this`runtime
      ensures On(c)
      ensures out == Done ==> Gone(c, Durable(), RuntimeInstance)
      ensures out != Refused
      ensures databases.steady ==> out != Interrupted
    {
      hide OnPath, StateAt, Removing;
      if !databases.steady { if * { return Interrupted; } }
      ghost var before := Durable();
      StoppedBeforeRemoval(c, before);
      if runtime.Running? { return Refused; }
      runtime := Absent;
      Took(c, before, Write(Remove), Durable());
      if !databases.steady { if * { return Interrupted; } }
      return Done;
    }

    /** Delivery, client, secret: the reverse of registration. */
    method RemoveOidcMaterial(ghost c: Case) returns (out: Outcome)
      requires On(c) && Clearing(OidcClient)
      modifies this`client, this`secret, this`delivery
      ensures On(c)
      ensures out == Done ==> Gone(c, Durable(), OidcClient)
      ensures out == Refused ==> Live(client) && row.startedAt < client.value.createdAt
      ensures databases.steady ==> out != Interrupted
    {
      hide OnPath, StateAt, Removing;
      if !databases.steady { if * { return Interrupted; } }
      ghost var before := Durable();
      delivery := None;
      Took(c, before, Write(Withdraw), Durable());
      if !databases.steady { if * { return Interrupted; } }
      ghost var withdrawn := Durable();
      if Live(client) && row.startedAt < client.value.createdAt { return Refused; }
      client := RevokedAt(client, row.startedAt);
      Took(c, withdrawn, Write(Revoke), Durable());
      if !databases.steady { if * { return Interrupted; } }
      ghost var revoked := Durable();
      secret := None;
      Took(c, revoked, Write(DropSecret), Durable());
      if !databases.steady { if * { return Interrupted; } }
      return Done;
    }

    method RemoveResource(r: Resource, staged: Platform, ghost c: Case) returns (out: Outcome)
      requires On(c) && Clearing(r) && Wanted(target, row, staged)
      modifies this`runtime, this`client, this`secret, this`delivery, this`snapshot, databases
      ensures On(c) && databases.OthersKept(target.installation)
      ensures D.RetainMay(old(Durable().dirs), Durable().dirs)
      ensures snapshot == old(snapshot) || snapshot == staged
      ensures out == Done ==> Gone(c, Durable(), r)
      ensures out == Refused ==>
        || (r == AppDatabases && (!D.Exclusive(Durable().dirs) || Durable().dirs.staging.Some?))
        || (r == OidcClient && Live(client) && row.startedAt < client.value.createdAt)
      ensures databases.steady ==> out != Interrupted
    {
      hide OnPath, StateAt, Removing, Wanted;
      match r {
        case AppDatabases => out := RetainDatabases(c);
        case RuntimeInstance => out := RemoveRuntime(c);
        case OidcClient => out := RemoveOidcMaterial(c);
        case RuntimeActivation => out := DeactivateRuntime(c);
        case PlatformSnapshot => out := SaveSnapshot(staged, c);
      }
    }

    // -------------------------------------------------------------- whole operations

    /** Moves one step of the journal. */
    method RecordStep(k: nat, to: StepState, ghost c: Case) returns (out: Outcome)
      requires On(c) && k < |row.steps| && StepMove(row, k, row.steps[k].state, to)
      requires to == Applied ==>
        if row.kind == Install
        then Reached(c, Durable(), row.steps[k].resource)
        else Gone(c, Durable(), row.steps[k].resource)
      requires to == Undone ==> Gone(c, Durable(), row.steps[k].resource)
      modifies this`row
      ensures On(c)
      ensures out == Done ==> row.steps == old(row.steps)[k := Step(old(row.steps)[k].resource, to)]
      ensures row.steps == old(row.steps) || row.steps == old(row.steps)[k := Step(old(row.steps)[k].resource, to)]
      ensures row.phase == old(row.phase) && row.kind == old(row.kind)
      ensures out != Refused
      ensures databases.steady ==> out != Interrupted
    {
      hide OnPath, Reached, Gone, Operations.Valid, Follows;
      Planned(c, Durable());
      var before := row;
      StepAccepted(before, k, to, before.updatedAt);
      out := Record(TransitionTo(to, row.steps[k].resource), c);
      if row != before {
        ApplyAdvances(before, TransitionTo(to, before.steps[k].resource), row.updatedAt);
        StepAccepted(before, k, to, row.updatedAt);
      }
    }

    /** One step of an install: begin it unless the journal says it was begun,
        act, complete it. */
    method InstallStep(k: nat, staged: Platform, ghost c: Case) returns (out: Outcome)
      requires On(c) && row.kind == Install && row.phase == Phase.Applying && Lists(staged, target)
      requires k < |row.steps| && row.steps[k].state != Applied && AllIn(row.steps[..k], {Applied})
      modifies this`row, this`runtime, this`client, this`secret, this`delivery, this`snapshot, databases
      ensures On(c) && databases.OthersKept(target.installation)
      ensures row.phase == old(row.phase) && row.kind == old(row.kind)
      ensures snapshot == old(snapshot) || snapshot == staged
      ensures out == Done ==> row.steps == old(row.steps)[k := Step(old(row.steps)[k].resource, Applied)]
      ensures Onward(old(row.steps), row.steps)
      ensures client != old(client) ==>
        old(row.steps)[k].resource == OidcClient && client.Some? && Some(client.value.redirect) == address
      ensures out == Refused ==>
        old(row.steps)[k].resource == OidcClient && target.oidc.Some? && Unregistrable(target, old(client), address)
      ensures out == Done && old(row.steps)[k].resource == OidcClient ==> !Unregistrable(target, old(client), address)
      ensures databases.steady ==> out != Interrupted
    {
      hide OnPath, Reached, Unregistrable, Operations.Valid, Follows, Lists;
      var r := row.steps[k].resource;
      StepStands(c, Durable(), k);
      if row.steps[k].state == Pending {
        out := RecordStep(k, Busy, c);
        if out != Done { return; }
      } else if row.steps[k].state != Busy {
        return Refused;
      }
      StepStands(c, Durable(), k);
      out := ApplyResource(r, staged, c);
      if out != Done { return; }
      out := RecordStep(k, Applied, c);
    }

    /** One step of an uninstall. */
    method UninstallStep(k: nat, staged: Platform, ghost c: Case) returns (out: Outcome)
      requires On(c) && row.kind == Uninstall && row.phase == Phase.Applying && Omits(staged, target)
      requires k < |row.steps| && row.steps[k].state != Applied && AllIn(row.steps[..k], {Applied})
      modifies this`row, this`runtime, this`client, this`secret, this`delivery, this`snapshot, databases
      ensures On(c) && databases.OthersKept(target.installation)
      ensures row.phase == old(row.phase) && row.kind == old(row.kind)
      ensures snapshot == old(snapshot) || snapshot == staged
      ensures out == Done ==> row.steps == old(row.steps)[k := Step(old(row.steps)[k].resource, Applied)]
      ensures out == Refused ==> U.ClientFromTheFuture(c)
      ensures databases.steady ==> out != Interrupted
    {
      hide OnPath, Gone, Operations.Valid, Follows, Omits, U.ClientFromTheFuture, D.RetainMay, D.Exclusive;
      var r := row.steps[k].resource;
      StepStands(c, Durable(), k);
      if row.steps[k].state == Pending {
        out := RecordStep(k, Busy, c);
        if out != Done { return; }
      } else if row.steps[k].state != Busy {
        return Refused;
      }
      StepStands(c, Durable(), k);
      out := RemoveResource(r, staged, c);
      RefusedUninstall(c, Durable());
      if out != Done { return; }
      out := RecordStep(k, Applied, c);
    }

    /** Applies every step that is not applied yet. */
    method ApplySteps(staged: Platform, ghost c: Case) returns (out: Outcome)
      requires On(c) && row.kind == Install && row.phase == Phase.Applying && Lists(staged, target)
      modifies this`row, this`runtime, this`client, this`secret, this`delivery, this`snapshot, databases
      ensures On(c) && databases.OthersKept(target.installation)
      ensures snapshot == old(snapshot) || snapshot == staged
      ensures row.kind == Install && row.phase == Phase.Applying
      ensures out == Done ==> forall i :: 0 <= i < |row.steps| ==> row.steps[i].state == Applied
      ensures out != Interrupted ==> (out == Refused <==> Unregistered(target, old(row), old(client), address))
      ensures Onward(old(row.steps), row.steps)
      ensures client != old(client) ==> client.Some? && Some(client.value.redirect) == address
      ensures databases.steady ==> out != Interrupted
    {
      hide OnPath, Unregistrable, Operations.Valid, Follows, Lists, StateAt;
      var steps := row.steps;
      PlannedOidc(c, Durable());
      for k := 0 to |steps|
        invariant On(c) && databases.OthersKept(target.installation)
        invariant row.kind == Install && row.phase == Phase.Applying
        invariant snapshot == old(snapshot) || snapshot == staged
        invariant |row.steps| == |steps|
        invariant forall i :: 0 <= i < k ==> row.steps[i] == Step(steps[i].resource, Applied)
        invariant forall i :: k <= i < |steps| ==> row.steps[i] == steps[i]
        invariant client != old(client) ==> client.Some? && Some(client.value.redirect) == address
        invariant client == old(client) || exists i :: 0 <= i < k && steps[i].resource == OidcClient
        invariant forall i :: 0 <= i < k && steps[i].resource == OidcClient && steps[i].state != Applied ==>
          !Unregistrable(target, old(client), address)
      {
        if steps[k].state == Applied { continue; }
        out := InstallStep(k, staged, c);
        if out != Done { return; }
      }
      return Done;
    }

    /** Takes an install forward from wherever the journal says it stands. */
    method ApplyInstall(staged: Platform, ghost c: Case) returns (out: Outcome)
      requires On(c) && row.kind == Install && row.phase == Phase.Applying && Lists(staged, target)
      modifies this`row, this`runtime, this`client, this`secret, this`delivery, this`snapshot, this`live, databases
      ensures On(c) && databases.OthersKept(target.installation)
      ensures live == if out == Done then staged else old(live)
      ensures snapshot == old(snapshot) || snapshot == staged
      ensures row.kind == old(row.kind) && (row.phase == Phase.Applying || row.phase == Committed)
      ensures out == Done ==> row.phase == Committed
      ensures out != Interrupted ==> (out == Refused <==> Unregistered(target, old(row), old(client), address))
      ensures Onward(old(row.steps), row.steps)
      ensures client != old(client) ==> client.Some? && Some(client.value.redirect) == address
      ensures databases.steady ==> out != Interrupted
    {
      hide OnPath, Operations.Valid, Follows, Lists, StateAt, Unregistered;
      Planned(c, Durable());
      if !Follows(row.steps, Plan(target, row.kind)) { return Refused; }
      out := ApplySteps(staged, c);
      if out != Done { return; }
      Planned(c, Durable());
      PhaseAccepted(row, Commit, row.updatedAt);
      out := Record(Commit, c);
      if out != Done { return; }
      live := staged;
    }

    method ApplyUninstall(staged: Platform, ghost c: Case) returns (out: Outcome)
      requires On(c) && row.kind == Uninstall && row.phase == Phase.Applying && Omits(staged, target)
      modifies this`row, this`runtime, this`client, this`secret, this`delivery, this`snapshot, this`live, databases
      ensures On(c) && databases.OthersKept(target.installation)
      ensures live == if out == Done then staged else old(live)
      ensures snapshot == old(snapshot) || snapshot == staged
      ensures row.kind == old(row.kind) && (row.phase == Phase.Applying || row.phase == Committed)
      ensures out == Done ==> row.phase == Committed
      ensures out == Refused ==> U.ClientFromTheFuture(c)
      ensures databases.steady ==> out != Interrupted
    {
      hide OnPath, U.ClientFromTheFuture, Operations.Valid, Follows, Omits;
      Planned(c, Durable());
      if !Follows(row.steps, Plan(target, row.kind)) { return Refused; }
      var steps := row.steps;
      for k := 0 to |steps|
        invariant On(c) && databases.OthersKept(target.installation)
        invariant row.kind == Uninstall && row.phase == Phase.Applying && live == old(live)
        invariant snapshot == old(snapshot) || snapshot == staged
        invariant |row.steps| == |steps|
        invariant forall i :: 0 <= i < k ==> row.steps[i].state == Applied
        invariant forall i :: k <= i < |steps| ==> row.steps[i] == steps[i]
      {
        if steps[k].state == Applied { continue; }
        out := UninstallStep(k, staged, c);
        if out != Done { return; }
      }
      Planned(c, Durable());
      PhaseAccepted(row, Commit, row.updatedAt);
      out := Record(Commit, c);
      if out != Done { return; }
      live := staged;
    }

    /** One step of a compensation. */
    method BackwardStep(k: nat, staged: Platform, ghost c: Case) returns (out: Outcome)
      requires On(c) && row.kind == Install && row.phase == Compensating && Omits(staged, target)
      requires k < |row.steps| && row.steps[k].state != Pending && row.steps[k].state != Undone
      requires forall i :: k < i < |row.steps| ==> row.steps[i].state == Pending || row.steps[i].state == Undone
      modifies this`row, this`runtime, this`client, this`secret, this`delivery, this`snapshot, databases
      ensures On(c) && databases.OthersKept(target.installation)
      ensures D.RetainMay(old(Durable().dirs), Durable().dirs)
      ensures snapshot == old(snapshot) || snapshot == staged
      ensures row.phase == old(row.phase) && row.kind == old(row.kind)
      ensures out == Done ==> row.steps == old(row.steps)[k := Step(old(row.steps)[k].resource, Undone)]
      ensures out == Refused ==> Durable().dirs.staging.Some?
      ensures databases.steady ==> out != Interrupted
    {
      hide OnPath, Gone, Operations.Valid, Follows, Omits, D.Exclusive;
      var r := row.steps[k].resource;
      StepStands(c, Durable(), k);
      if row.steps[k].state == UndoPending {
        out := RecordStep(k, Undoing, c);
        if out != Done { return; }
      } else if row.steps[k].state != Undoing {
        return Refused;
      }
      StepStands(c, Durable(), k);
      out := RemoveResource(r, staged, c);
      RefusedCompensation(c, Durable());
      if out != Done { return; }
      out := RecordStep(k, Undone, c);
    }

    /** Takes a compensation back, last step first, from wherever it stands. */
    method CompensateInstallOperation(ghost c: Case) returns (out: Outcome)
      requires On(c) && row.kind == Install && row.phase == Compensating
      modifies this`row, this`runtime, this`client, this`secret, this`delivery, this`snapshot, this`live, databases
      ensures On(c) && databases.OthersKept(target.installation)
      ensures live == if out == Done then Without(old(live), target) else old(live)
      ensures snapshot == old(snapshot) || snapshot == Without(old(live), target)
      ensures row.kind == old(row.kind) && (row.phase == Compensated || row.phase == Compensating)
      ensures out == Done ==> row.phase == Compensated
      ensures D.RetainMay(old(Durable().dirs), Durable().dirs)
      ensures out != Interrupted ==>
        (out == Refused <==> !Releases(old(live), target) || D.StateOf(old(Durable().dirs)) == D.Staged)
      ensures databases.steady ==> out != Interrupted
    {
      hide OnPath, Operations.Valid, Follows, Omits, Releases, I.Withdrawn;
      Planned(c, Durable());
      if !Follows(row.steps, Plan(target, row.kind)) { return Refused; }
      var without := StageWithoutTarget();
      if without.None? { return Refused; }
      var staged := without.value;
      var steps := row.steps;
      for k := |steps| downto 0
        invariant On(c) && databases.OthersKept(target.installation)
        invariant D.RetainMay(old(Durable().dirs), Durable().dirs)
        invariant row.kind == Install && row.phase == Compensating && live == old(live)
        invariant snapshot == old(snapshot) || snapshot == staged
        invariant |row.steps| == |steps|
        invariant forall i :: 0 <= i < k ==> row.steps[i] == steps[i]
        invariant forall i :: k <= i < |steps| ==> row.steps[i].state == Pending || row.steps[i].state == Undone
      {
        if steps[k].state == Pending || steps[k].state == Undone { continue; }
        out := BackwardStep(k, staged, c);
        if out == Refused { RefusedCompensation(c, Durable()); }
        if out != Done { return; }
      }
      Planned(c, Durable());
      PhaseAccepted(row, FinishUndo, row.updatedAt);
      out := Record(FinishUndo, c);
      if out != Done { return; }
      CompensatedWorld(c, Durable());
      live := staged;
    }

    /** The state in memory with the target, which another operation may have
        made impossible meanwhile. */
    method StageInstallTarget() returns (staged: Option<Platform>)
      ensures staged.Some? <==> Admits(live, target)
      ensures staged.Some? ==> Lists(staged.value, target) && Without(staged.value, target) == Without(live, target)
      ensures staged.Some? && Lists(live, target) ==> staged.value == live
    {
      if target.installation in live.apps {
        return if live.apps[target.installation] == target then Some(live) else None;
      }
      if Rival(live, target) { return None; }
      WithoutForgets(live, target);
      return Some(With(live, target));
    }

    method StageWithoutTarget() returns (staged: Option<Platform>)
      ensures staged.Some? <==> Releases(live, target)
      ensures staged.Some? ==> staged.value == Without(live, target) && Omits(staged.value, target)
    {
      if target.installation in live.apps {
        return if live.apps[target.installation] == target then Some(Without(live, target)) else None;
      }
      if Twin(live, target) { return None; }
      return Some(Without(live, target));
    }

    /** Turns an unfinished install round and takes it back. */
    method CompensateInstall(ghost c: Case) returns (out: Outcome)
      requires On(c)
      modifies this`row, this`runtime, this`client, this`secret, this`delivery, this`snapshot, this`live, databases
      ensures On(c) && databases.OthersKept(target.installation)
      ensures out == Done ==>
        row.phase == Compensated && I.Withdrawn(c, Durable()) && live == Without(old(live), target)
      ensures out == Done && old(live) == old(snapshot) ==> live == snapshot
      ensures out != Done ==> live == old(live)
      ensures out != Interrupted ==>
        (out == Refused <==>
          || old(row).kind != Install || Terminal(old(row))
          || !Releases(old(live), target) || D.StateOf(old(Durable().dirs)) == D.Staged)
      ensures databases.steady ==> out != Interrupted
    {
      hide OnPath, Operations.Valid, Follows, I.Withdrawn, Apply, MarkUndo, Releases, Omits, Without;
      if row.kind != Install { return Refused; }
      match row.phase {
        case Applying =>
          Planned(c, Durable());
          PhaseAccepted(row, BeginUndo, row.updatedAt);
          var before := row;
          out := Record(BeginUndo, c);
          if out != Done { return; }
          TurnedRound(before, row);
        case Compensating =>
        case _ => return Refused;
      }
      out := CompensateInstallOperation(c);
      if out == Done {
        CompensatedWorld(c, Durable());
        OmittedStays(snapshot, target);
      }
    }

    /** Start-up recovery: finishes the operation the journal left open, in the
        direction it was travelling, over whatever the state in memory holds of
        other apps by now. */
    method Recover(ghost c: Case) returns (out: Outcome)
      requires On(c)
      modifies this`row, this`runtime, this`client, this`secret, this`delivery, this`snapshot, this`live, databases
      ensures On(c) && databases.OthersKept(target.installation)
      ensures out == Done ==> Finished(c, Durable()) && Without(live, target) == Without(old(live), target)
      ensures snapshot == old(snapshot) || Without(snapshot, target) == Without(old(live), target)
      ensures out == Done && old(live) == old(snapshot) ==> live == snapshot
      ensures out == Done && Own(old(live), target) == Own(old(snapshot), target) ==>
        Own(live, target) == Own(snapshot, target)
      ensures out != Done ==> live == old(live)
      ensures out != Interrupted ==> (out == Refused <==> Blocked(c, old(Durable()), old(live), address))
      ensures Blocked(c, Durable(), live, address) ==> Blocked(c, old(Durable()), old(live), address)
      ensures databases.steady ==> out != Interrupted
    {
      hide OnPath, Operations.Valid, Follows, Finished, With, Without, Lists, Omits, Admits, Releases, Unregistrable;
      hide U.ClientFromTheFuture, StateAt;
      if Terminal(row) {
        FinishedWorld(c, Durable());
        return Done;
      }
      Planned(c, Durable());
      WithoutForgets(live, target);
      if row.kind == Install && row.phase == Phase.Applying {
        var staged := StageInstallTarget();
        if staged.None? { return Refused; }
        ghost var before := Durable();
        out := ApplyInstall(staged.value, c);
        StillUnregistered(target, before, Durable(), address);
      } else if row.kind == Install {
        out := CompensateInstallOperation(c);
      } else {
        var staged := StageWithoutTarget();
        if staged.None? { return Refused; }
        out := ApplyUninstall(staged.value, c);
      }
      if out == Done {
        FinishedWorld(c, Durable());
        OmittedStays(snapshot, target);
        WithoutOmits(old(live), target);
        OwnStays(old(live), old(snapshot), live, snapshot, target);
      }
    }

    /** Installs a validated app whose installation identity was just drawn. The
        case is there once the journal holds the operation. */
    method InstallApp(app: App) returns (out: Outcome, ghost c: Option<Case>)
      requires Unseen(app, databases.View(app.installation), live, snapshot)
      requires runtime == Absent && client.None? && secret.None? && delivery.None?
      modifies this, databases
      ensures address == old(address)
      ensures c.None? ==> out != Done && row == old(row) && snapshot == old(snapshot)
      ensures c.Some? ==> On(c.value) && c.value.app == app && c.value.start.snapshot == old(snapshot)
      ensures Rival(old(live), app) ==> c.None?
      ensures databases.OthersKept(app.installation)
      ensures out == Done ==>
        row.kind == Install && Finished(c.value, Durable()) && live == snapshot == With(old(live), app)
      ensures out != Done ==> live == old(live)
      ensures out != Interrupted ==>
        (out == Refused <==> Rival(old(live), app) || (app.oidc.Some? && Unregistrable(app, None, address)))
      ensures databases.steady ==> out != Interrupted
    {
      hide OnPath, Operations.Valid, Follows, Finished, Unregistrable, With, Plan, Rival;
      if Rival(live, app) { return Refused, None; }
      var staged := With(live, app);
      ListedWith(live, app);
      var now: nat, id: nat := *, *;
      if !databases.steady { if * { return Interrupted, None; } }
      row, target := Operation(id, Install, Phase.Applying, Fresh(Plan(app, Install)), 0, now, now), app;
      c := Some(Case(app, Durable()));
      NewInstall(c.value, live);
      if !databases.steady { if * { return Interrupted, c; } }
      NothingApplied(row.steps, OidcClient);
      out := ApplyInstall(staged, c.value);
      if out == Done { FinishedWorld(c.value, Durable()); }
    }

    method UninstallApp(installation: nat) returns (out: Outcome, ghost c: Option<Case>)
      requires installation in live.apps ==>
        var app := live.apps[installation];
        app.installation == installation && Established(app, Durable().(dirs := databases.View(installation)))
      modifies this, databases
      ensures c.None? ==> out != Done && row == old(row) && snapshot == old(snapshot)
      ensures c.Some? ==> installation in old(live.apps) && On(c.value) && c.value.app == old(live.apps[installation])
      ensures out == Done ==> row.kind == Uninstall && row.phase == Committed && Finished(c.value, Durable())
      ensures out == Done ==> live == Without(old(live), old(live.apps[installation])) && Omits(snapshot, target)
      ensures out == Done && old(live) == old(snapshot) ==> live == snapshot
      ensures out != Done ==> live == old(live)
      ensures out == Refused ==> installation !in old(live.apps) || (c.Some? && U.ClientFromTheFuture(c.value))
      ensures out == Done ==> installation in old(live.apps) && !U.ClientFromTheFuture(c.value)
      ensures databases.steady ==> out != Interrupted
    {
      hide OnPath, Operations.Valid, Follows, Finished, Plan, U.ClientFromTheFuture;
      if installation !in live.apps { return Refused, None; }
      var app := live.apps[installation];
      var staged := Without(live, app);
      var now: nat, id: nat := *, *;
      if !databases.steady { if * { return Interrupted, None; } }
      row, target := Operation(id, Uninstall, Phase.Applying, Fresh(Plan(app, Uninstall)), 0, now, now), app;
      c := Some(Case(app, Durable()));
      NewUninstall(c.value);
      if !databases.steady { if * { return Interrupted, c; } }
      out := ApplyUninstall(staged, c.value);
      if out == Done {
        FinishedWorld(c.value, Durable());
        OmittedStays(snapshot, target);
      }
    }
  }

  // ---------------------------------------------------------------- what the invariant grants a step in flight

  lemma BusyHolds(c: Case, w: World, r: Resource)
    requires OnPath(c, w) && w.op.kind == Install && StateAt(w.op.steps, r) == Busy
    ensures I.Holds(c, w, r, Busy, I.LaterTouched(w.op.steps, r)) && I.Planned(c.app, r)
    ensures w.op.startedAt == c.start.op.startedAt && w.op.id == c.start.op.id
  {
    hide OnPath, StateAt, I.Holds, I.LaterTouched, Operations.Valid, Follows, I.Starts, U.Starts, U.Inv;
    Keeps(c, w);
    I.UnplannedIsPending(c, w, r);
  }

  lemma BusyDatabases(c: Case, w: World)
    requires OnPath(c, w) && w.op.kind == Install && StateAt(w.op.steps, AppDatabases) == Busy
    ensures c.app.databases != []
    ensures var bs := Bindings(c.app);
      bs != [] && bs[0].owner == c.app.installation
      && !D.Mixed(bs) && !D.Duplicates(bs) && D.ProvisionRefusal(w.dirs, bs) == None
  {
    hide StateAt, I.LaterTouched, D.ProvisionRefusal, Reaches;
    BusyHolds(c, w, AppDatabases);
    D.ProvisionReplays([NoDirs, w.dirs], 1, Bindings(c.app));
  }

  lemma BusyRuntime(c: Case, w: World, r: Resource)
    requires OnPath(c, w) && w.op.kind == Install && StateAt(w.op.steps, r) == Busy
    requires r == RuntimeInstance || r == RuntimeActivation
    ensures w.runtime.Absent? || w.runtime.app == c.app
    ensures r == RuntimeActivation ==> !w.runtime.Absent?
  {
    hide StateAt, I.LaterTouched, OnPath, I.Inv;
    BusyHolds(c, w, r);
    if r == RuntimeActivation {
      Keeps(c, w);
      I.EarlierInPlace(c, w, RuntimeInstance, RuntimeActivation);
    }
  }

  lemma BusyOidc(c: Case, w: World)
    requires OnPath(c, w) && w.op.kind == Install && StateAt(w.op.steps, OidcClient) == Busy
    ensures c.app.oidc.Some? && I.Registering(c, w)
  {
    hide StateAt, I.LaterTouched, OnPath;
    BusyHolds(c, w, OidcClient);
  }

  /** What the registrar stored is a run of the machine, and what it refuses is
      what it must. */
  lemma Registers(c: Case, w: World, address: Option<string>, client': Option<Client>, secret': Option<nat>)
    requires OnPath(c, w) && w.op.kind == Install && StateAt(w.op.steps, OidcClient) == Busy && !Removing(w.op)
    requires G.Stores(c.app, address, w.client, w.secret, w.op.startedAt, client', secret')
    ensures OnPath(c, w.(client := client', secret := secret'))
    ensures G.Refusable(c.app, address, w.client, w.secret) <==> Unregistrable(c.app, w.client, address)
    ensures client' != w.client ==> client'.Some? && Some(client'.value.redirect) == address
    ensures G.Holds(c.app, address, client', secret') ==>
      Registered(c, w.(client := client', secret := secret')) && client'.value.createdAt == w.op.startedAt
  {
    hide OnPath, StateAt, Nameable;
    BusyOidc(c, w);
    RegisteredIsNameable(c, w);
    G.NameableIs(c.app);
    var sealed := w.(secret := secret');
    if secret' != w.secret { Took(c, w, Write(SaveSecret(secret'.value)), sealed); }
    if client' != w.client {
      Took(c, sealed, Write(SaveClient(client'.value.id, client'.value.redirect)), sealed.(client := client'));
    }
  }

  lemma StepStands(c: Case, w: World, k: nat)
    requires OnPath(c, w) && k < |w.op.steps|
    ensures StateAt(w.op.steps, w.op.steps[k].resource) == w.op.steps[k].state
    ensures Rank(w.op.phase, w.op.steps[k].state) < 9
  {
    hide OnPath, RevisionFits, Follows, Plan;
    Planned(c, w);
    assert Position(w.op.steps, w.op.steps[k].resource) == Some(k);
  }

  lemma StoppedBeforeRemoval(c: Case, w: World)
    requires OnPath(c, w) && Removing(w.op) && InFlight(StateAt(w.op.steps, RuntimeInstance))
    ensures !w.runtime.Running?
  {
    hide OnPath, I.Inv, U.Inv, StateAt;
    Keeps(c, w);
    if w.op.kind == Install { I.Covered(c, w); } else { U.StaysCovered(c, w); }
  }

  lemma RefusedUninstall(c: Case, w: World)
    requires OnPath(c, w) && w.op.kind == Uninstall
    ensures D.Exclusive(w.dirs) && w.dirs.staging.None?
    ensures StateAt(w.op.steps, OidcClient) == Pending || !Live(w.client)
      || w.client.value.createdAt <= w.op.startedAt || U.ClientFromTheFuture(c)
  {
    hide OnPath, StateAt, Operations.Valid, Follows;
    Keeps(c, w);
    assert U.Holds(c, w, AppDatabases, StateAt(w.op.steps, AppDatabases));
    assert U.Holds(c, w, OidcClient, StateAt(w.op.steps, OidcClient));
    U.PlanFacts(c, w);
    if c.app.oidc.None? { U.PlanShape(c.app); OidcUnplanned(c, w); }
  }

  lemma OidcUnplanned(c: Case, w: World)
    requires OnPath(c, w) && OidcClient !in Plan(c.app, w.op.kind)
    ensures StateAt(w.op.steps, OidcClient) == Pending
  {
    hide OnPath, Plan, Operations.Valid;
    Planned(c, w);
  }

  lemma RefusedCompensation(c: Case, w: World)
    requires OnPath(c, w) && w.op.kind == Install && w.op.phase == Compensating
    ensures D.Exclusive(w.dirs)
    ensures StateAt(w.op.steps, OidcClient) == Undoing && Live(w.client) ==> w.client.value.createdAt == w.op.startedAt
  {
    hide OnPath, StateAt, I.LaterTouched, Operations.Valid, Follows;
    Keeps(c, w);
    assert I.Holds(c, w, AppDatabases, StateAt(w.op.steps, AppDatabases), I.LaterTouched(w.op.steps, AppDatabases));
    assert I.Holds(c, w, OidcClient, StateAt(w.op.steps, OidcClient), I.LaterTouched(w.op.steps, OidcClient));
  }

  lemma WithoutForgets(p: Platform, app: App)
    ensures Without(With(p, app), app) == Without(p, app) == Without(Without(p, app), app)
  {
    assert (p.apps[app.installation := app]) - {app.installation} == p.apps - {app.installation};
    assert (p.apps - {app.installation}) - {app.installation} == p.apps - {app.installation};
    assert Without(Without(p, app), app).grants == Without(p, app).grants;
  }

  lemma OmittedStays(p: Platform, app: App)
    ensures Omits(p, app) ==> Without(p, app) == p
  {
    if Omits(p, app) {
      assert p.apps - {app.installation} == p.apps;
      assert Without(p, app).grants == p.grants;
    }
  }

  lemma ListedWith(p: Platform, app: App)
    ensures Lists(With(p, app), app)
  {
  }

  /** Steps once applied stay applied. */
  predicate Onward(before: seq<Step>, after: seq<Step>) {
    && |after| == |before|
    && (forall i :: 0 <= i < |before| ==> after[i].resource == before[i].resource)
    && (forall i :: 0 <= i < |before| && before[i].state == Applied ==> after[i].state == Applied)
  }

  lemma OnwardState(before: seq<Step>, after: seq<Step>, r: Resource)
    requires Onward(before, after) && StateAt(before, r) == Applied
    ensures StateAt(after, r) == Applied
  {
    SamePosition(before, after, r);
  }

  lemma NothingApplied(steps: seq<Step>, r: Resource)
    requires forall i :: 0 <= i < |steps| ==> steps[i].state == Pending
    ensures StateAt(steps, r) != Applied
  {
  }

  /** A client is planned for exactly when it is declared. */
  lemma PlannedOidc(c: Case, w: World)
    requires OnPath(c, w) && w.op.kind == Install
    ensures c.app.oidc.Some? <==> exists i :: 0 <= i < |w.op.steps| && w.op.steps[i].resource == OidcClient
    ensures forall i :: 0 <= i < |w.op.steps| && w.op.steps[i].resource == OidcClient ==>
      StateAt(w.op.steps, OidcClient) == w.op.steps[i].state
    ensures forall i, j :: 0 <= i < j < |w.op.steps| ==> w.op.steps[i].resource != w.op.steps[j].resource
  {
    hide OnPath, Plan, RevisionFits, Shape;
    Planned(c, w);
    I.PlanSorted(c.app);
    var plan := Plan(c.app, Install);
    if c.app.oidc.Some? {
      assert I.Planned(c.app, OidcClient);
      var i :| 0 <= i < |plan| && plan[i] == OidcClient;
      assert w.op.steps[i].resource == OidcClient;
    }
    forall i | 0 <= i < |w.op.steps| && w.op.steps[i].resource == OidcClient
      ensures c.app.oidc.Some? && StateAt(w.op.steps, OidcClient) == w.op.steps[i].state
    {
      assert plan[i] == OidcClient;
      assert I.Planned(c.app, OidcClient);
      StepStands(c, w, i);
    }
  }

  // ---------------------------------------------------------------- whole operations

  /** The operation ended as if it had never been interrupted. */
  ghost predicate Finished(c: Case, w: World) {
    match w.op.phase
    case Committed =>
      if w.op.kind == Install then I.IsInstalled(c, w) else U.IsUninstalled(c, w)
    case Compensated => I.Withdrawn(c, w)
    case _ => false
  }

  /** A declared client cannot be registered or taken up again: its name is
      unusable, its address cannot be resolved, or it was registered under
      another one. */
  predicate Unregistrable(app: App, client: Option<Client>, address: Option<string>) {
    || !Nameable(app) || address.None?
    || (Live(client) && client.value.redirect != address.value)
  }

  /** The client step is still to be completed and cannot be. */
  predicate Unregistered(app: App, op: Operation, client: Option<Client>, address: Option<string>) {
    app.oidc.Some? && StateAt(op.steps, OidcClient) != Applied && Unregistrable(app, client, address)
  }

  /** What stops an operation, given the state in memory and the address the
      platform resolves. */
  predicate Blocked(c: Case, w: World, live: Platform, address: Option<string>) {
    match w.op.phase
    case Applying =>
      if w.op.kind == Install then !Admits(live, c.app) || Unregistered(c.app, w.op, w.client, address)
      else !Releases(live, c.app) || U.ClientFromTheFuture(c)
    case Compensating => !Releases(live, c.app) || D.StateOf(w.dirs) == D.Staged
    case _ => false
  }

  lemma WithoutOmits(p: Platform, app: App)
    ensures Omits(Without(p, app), app)
  {
  }

  /** After a finished turn, memory and snapshot agree on the app if they did
      before. */
  lemma OwnStays(live: Platform, snapshot: Platform, live': Platform, snapshot': Platform, app: App)
    requires snapshot' == snapshot || snapshot' == live'
    requires (Omits(live', app) && Omits(snapshot', app))
      || (Lists(snapshot', app) && (Lists(live, app) ==> live' == live))
    ensures Own(live, app) == Own(snapshot, app) ==> Own(live', app) == Own(snapshot', app)
  {
    hide Own;
    if Own(live, app) == Own(snapshot, app) && snapshot' != live' {
      if Lists(snapshot', app) { OwnDecides(live, snapshot, app); } else { BothOmit(live', snapshot', app); }
    }
  }

  lemma StillUnregistered(app: App, w: World, w': World, address: Option<string>)
    requires Onward(w.op.steps, w'.op.steps)
    requires w'.client != w.client ==> w'.client.Some? && Some(w'.client.value.redirect) == address
    ensures Unregistered(app, w'.op, w'.client, address) ==> Unregistered(app, w.op, w.client, address)
  {
    if StateAt(w.op.steps, OidcClient) == Applied { OnwardState(w.op.steps, w'.op.steps, OidcClient); }
  }

  lemma TurnedRound(before: Operation, after: Operation)
    requires Apply(before, BeginUndo, after.updatedAt) == Ok(after)
    ensures after.kind == before.kind && after.phase == Compensating
  {
  }

  lemma CompensatedWorld(c: Case, w: World)
    requires OnPath(c, w) && w.op.phase == Compensated
    ensures I.Withdrawn(c, w) && w.op.kind == Install && w.dirs.staging.None? && Omits(w.snapshot, c.app)
  {
    hide OnPath, I.Inv, Operations.Valid, Follows;
    Keeps(c, w);
    Planned(c, w);
    I.CompensatedIsWithdrawn(c, w);
  }

  /** A finished operation was not one that can be blocked. */
  lemma FinishedWorld(c: Case, w: World)
    requires OnPath(c, w) && Terminal(w.op)
    ensures Finished(c, w)
    ensures w.op.phase == Committed ==>
      if w.op.kind == Install then Lists(w.snapshot, c.app) else Omits(w.snapshot, c.app)
    ensures w.op.phase == Compensated ==> Omits(w.snapshot, c.app) && w.dirs.staging.None?
    ensures w.op.phase == Committed && w.op.kind == Uninstall ==> !U.ClientFromTheFuture(c)
  {
    hide OnPath, I.Inv, U.Inv, Operations.Valid, Follows, Lists, Omits, I.Withdrawn, Plan, U.ClientFromTheFuture;
    hide I.Installed, U.Uninstalled;
    if w.op.phase == Compensated {
      CompensatedWorld(c, w);
    } else {
      Keeps(c, w);
      if w.op.kind == Install {
        I.CommittedIsInstalled(c, w);
      } else {
        U.CommittedIsUninstalled(c, w);
        NeverFromTheFuture(c, w);
      }
    }
  }

  lemma {:induction false} NameableRun(c: Case, w: World, run: seq<Turn>)
    requires Exec(c, w, run).Some? && (w.client.Some? ==> Nameable(c.app))
    ensures Exec(c, w, run).value.client.Some? ==> Nameable(c.app)
    decreases |run|
  {
    hide Nameable, Apply, MayRecord, Enabled;
    if run != [] {
      NameableRun(c, Do(c, w, run[0]).value, run[1..]);
    }
  }

  lemma RegisteredIsNameable(c: Case, w: World)
    requires OnPath(c, w) && w.op.kind == Install
    ensures w.client.Some? ==> Nameable(c.app)
  {
    hide Nameable, Exec, I.Inv, U.Inv;
    Keeps(c, w);
    var run :| Exec(c, c.start, run) == Some(w);
    NameableRun(c, c.start, run);
  }

  lemma NeverFromTheFuture(c: Case, w: World)
    requires OnPath(c, w) && w.op.kind == Uninstall && w.op.phase == Committed
    ensures !U.ClientFromTheFuture(c)
  {
    hide Exec, I.Inv, U.Inv, U.ClientFromTheFuture;
    Keeps(c, w);
    var run :| Exec(c, c.start, run) == Some(w);
    if U.ClientFromTheFuture(c) {
      U.StartHolds(c, c.start);
      U.FutureClientBlocksUninstall(c, c.start, run);
    }
  }

  /** Nothing of the installation exists, and its manifest was validated. */
  predicate Unseen(app: App, dirs: D.Dirs, live: Platform, snapshot: Platform) {
    && dirs == NoDirs && Omits(live, app) && Omits(snapshot, app)
    && (forall i, j :: 0 <= i < j < |app.databases| ==> app.databases[i] != app.databases[j])
  }

  lemma PlanValid(app: App, kind: Kind)
    ensures var plan := Plan(app, kind);
      && plan != [] && plan[|plan| - 1] == PlatformSnapshot
      && forall i, j :: 0 <= i < j < |plan| ==> plan[i] != plan[j]
  {
    if kind == Install { I.PlanSorted(app); }
  }

  lemma FreshValid(app: App, kind: Kind, id: nat, now: nat)
    ensures Operations.Valid(Operation(id, kind, Phase.Applying, Fresh(Plan(app, kind)), 0, now, now))
  {
    hide Plan;
    var steps := Fresh(Plan(app, kind));
    PlanValid(app, kind);
    NoneLeft(steps, Applied);
    NoneLeft(steps, Busy);
  }

  /** The journal row a new operation starts with. */
  predicate NewRow(c: Case, kind: Kind) {
    var op := c.start.op;
    op.kind == kind && op.phase == Phase.Applying && op.revision == 0 && op.startedAt == op.updatedAt
    && op.steps == Fresh(Plan(c.app, kind))
  }

  lemma NewInstall(c: Case, live: Platform)
    requires NewRow(c, Install)
    requires Unseen(c.app, c.start.dirs, live, c.start.snapshot)
    requires c.start.runtime == Absent && c.start.client.None? && c.start.secret.None? && c.start.delivery.None?
    ensures OnPath(c, c.start)
  {
    hide Operations.Valid, Plan;
    FreshValid(c.app, Install, c.start.op.id, c.start.op.startedAt);
    assert Exec(c, c.start, []) == Some(c.start);
  }

  /** An installed app as a finished install leaves it, whatever it did since:
      databases not half built, no client it never declared, a delivered secret
      if its code runs. */
  predicate Established(app: App, w: World) {
    && D.Exclusive(w.dirs) && w.dirs.staging.None?
    && (app.oidc.None? ==> w.delivery.None? && w.secret.None? && !Live(w.client))
    && (app.databases == [] ==> w.dirs.active.None?)
    && U.Covered(app, w)
    && (forall i, j :: 0 <= i < j < |app.databases| ==> app.databases[i] != app.databases[j])
  }

  lemma NewUninstall(c: Case)
    requires NewRow(c, Uninstall) && Established(c.app, c.start)
    ensures OnPath(c, c.start)
  {
    hide Operations.Valid, Plan;
    FreshValid(c.app, Uninstall, c.start.op.id, c.start.op.startedAt);
    assert Exec(c, c.start, []) == Some(c.start);
  }

  /** What an install leaves can be uninstalled. */
  lemma InstalledIsEstablished(c: Case, w: World)
    requires I.Starts(c, c.start) && Admitted(c) && I.IsInstalled(c, w)
    ensures Established(c.app, w)
  {
    hide Operations.Valid, Plan;
  }

  ghost predicate ReachesAlone(c: Case, w: World, w': World) {
    exists run: seq<Turn> :: Exec(c, w, run) == Some(w') && Alone(c, w, run)
  }

  /** Installing and then uninstalling, each interrupted and resumed any number
      of times while no other operation stores a snapshot, gives back the
      platform there was before. The data stays, kept aside, and the client stays
      as a revoked row. */
  lemma RoundTrip(install: Case, installed: World, uninstall: Case, end: World)
    requires I.Starts(install, install.start) && ReachesAlone(install, install.start, installed)
    requires uninstall.app == install.app && U.Starts(uninstall, uninstall.start)
    requires installed.op.phase == Committed && uninstall.start == installed.(op := uninstall.start.op)
    requires ReachesAlone(uninstall, uninstall.start, end) && end.op.phase == Committed
    ensures end.snapshot == install.start.snapshot && end.runtime == Absent
    ensures end.secret.None? && end.delivery.None? && !Live(end.client)
    ensures end.dirs
         == if install.app.databases == [] then NoDirs else D.Dirs(None, None, Some(D.Created(Files(install.app))))
  {
    hide Exec, Alone, Operations.Valid, Plan, Fresh, AllApplied, Without, Omits;
    var there :| Exec(install, install.start, there) == Some(installed) && Alone(install, install.start, there);
    var back :| Exec(uninstall, uninstall.start, back) == Some(end) && Alone(uninstall, uninstall.start, back);
    I.InstallConverges(install, install.start, there);
    U.UninstallConverges(uninstall, uninstall.start, back);
    OmittedStays(install.start.snapshot, install.app);
    OmittedStays(end.snapshot, install.app);
  }
}
