/** What every run of an install keeps, forward and back. */
module SagaInstall {
  import opened Wrappers
  import opened Operations
  import opened Saga
  import D = Databases

  /** The installation identity is new and nothing of it exists yet. */
  predicate Starts(c: Case, w: World) {
    && c.start == w
    && Operations.Valid(w.op) && w.op.kind == Install && w.op.phase == Phase.Applying && w.op.revision == 0
    && w.op.steps == Fresh(Plan(c.app, Install))
    && w.dirs == NoDirs && w.runtime == Absent
    && w.client.None? && w.secret.None? && w.delivery.None?
    && Omits(w.snapshot, c.app)
  }

  /** A step after this one was touched, so this one was applied. */
  predicate LaterTouched(steps: seq<Step>, r: Resource) {
    match Position(steps, r)
    case None => false
    case Some(i) => exists j :: i < j < |steps| && steps[j].state != Pending
  }

  /** The client side of a registration that may have stopped after any of its
      three writes: secret, client row, delivery. */
  predicate Registering(c: Case, w: World) {
    && (w.secret.Some? ==> c.app.oidc.Some? && c.app.oidc.value.confidential)
    && (w.client.Some? ==> Registered(c, w))
    && (w.delivery.Some? ==> Delivered(c, w))
  }

  predicate Unregistering(c: Case, w: World) {
    && (w.delivery.Some? ==> Delivered(c, w))
    && (Live(w.client) ==> Registered(c, w))
  }

  predicate DatabasesHold(c: Case, w: World, s: StepState, settled: bool) {
    match s
    case Pending => w.dirs == NoDirs
    case Busy => D.ProvisionMay(NoDirs, w.dirs, Files(c.app))
    case Applied => w.dirs == FreshDatabases(c.app)
    case UndoPending =>
      if settled then w.dirs == FreshDatabases(c.app) else D.ProvisionMay(NoDirs, w.dirs, Files(c.app))
    case Undoing =>
      || D.ProvisionMay(NoDirs, w.dirs, Files(c.app))
      || w.dirs == D.Dirs(None, None, Some(D.Created(Files(c.app))))
    case Undone => w.dirs == NoDirs || w.dirs == D.Dirs(None, None, Some(D.Created(Files(c.app))))
  }

  predicate InstanceHolds(c: Case, w: World, s: StepState, settled: bool) {
    && (w.runtime.Absent? || w.runtime.app == c.app)
    && (s == Pending || s == Undone ==> w.runtime.Absent?)
    && (s == Applied || (s == UndoPending && settled) ==> !w.runtime.Absent?)
  }

  predicate ActivationHolds(c: Case, w: World, s: StepState, settled: bool) {
    && (w.runtime.Absent? || w.runtime.app == c.app)
    && (s == Pending || s == Undone ==> !w.runtime.Running?)
    && (s == Applied || (s == UndoPending && settled) ==> w.runtime.Running?)
  }

  predicate OidcHolds(c: Case, w: World, s: StepState, settled: bool) {
    match s
    case Pending => w.client.None? && w.secret.None? && w.delivery.None?
    case Busy => Registering(c, w)
    case Applied => Registering(c, w) && Reached(c, w, OidcClient)
    case UndoPending => Registering(c, w) && (settled ==> Reached(c, w, OidcClient))
    case Undoing => Unregistering(c, w)
    case Undone => Gone(c, w, OidcClient)
  }

  predicate SnapshotHolds(c: Case, w: World, s: StepState) {
    match s
    case Pending => Omits(w.snapshot, c.app)
    case Undone => Omits(w.snapshot, c.app)
    case Applied => Lists(w.snapshot, c.app)
    case _ => Omits(w.snapshot, c.app) || Lists(w.snapshot, c.app)
  }

  predicate Holds(c: Case, w: World, r: Resource, s: StepState, settled: bool) {
    match r
    case AppDatabases => DatabasesHold(c, w, s, settled)
    case RuntimeInstance => InstanceHolds(c, w, s, settled)
    case OidcClient => OidcHolds(c, w, s, settled)
    case RuntimeActivation => ActivationHolds(c, w, s, settled)
    case PlatformSnapshot => SnapshotHolds(c, w, s)
  }

  predicate ResourcesHold(c: Case, w: World) {
    forall r: Resource :: Holds(c, w, r, StateAt(w.op.steps, r), LaterTouched(w.op.steps, r))
  }

  predicate Journalled(c: Case, w: World) {
    && Operations.Valid(w.op) && w.op.kind == c.start.op.kind == Install
    && w.op.id == c.start.op.id && w.op.startedAt == c.start.op.startedAt
    && Follows(w.op.steps, Plan(c.app, Install))
  }

  predicate Inv(c: Case, w: World) {
    Journalled(c, w) && ResourcesHold(c, w)
  }

  // ---------------------------------------------------------------- journal turns

  lemma TouchedAfterMove(steps: seq<Step>, i: nat, to: StepState, r: Resource)
    requires i < |steps| && to != Pending && steps[i].state != Pending
    ensures LaterTouched(steps[i := steps[i].(state := to)], r) == LaterTouched(steps, r)
  {
    var after := steps[i := steps[i].(state := to)];
    SamePosition(steps, after, r);
    if LaterTouched(steps, r) {
      var j :| Position(steps, r).value < j < |steps| && steps[j].state != Pending;
      assert after[j].state != Pending;
    }
    if LaterTouched(after, r) {
      var j :| Position(steps, r).value < j < |after| && after[j].state != Pending;
      assert steps[j].state != Pending;
    }
  }

  lemma StateAfterMark(steps: seq<Step>, r: Resource)
    requires Shape(Phase.Applying, steps)
    ensures StateAt(steps, r) in {Pending, Busy, Applied}
    ensures StateAt(MarkUndo(steps), r)
         == if StateAt(steps, r) in {Busy, Applied} then UndoPending else StateAt(steps, r)
    ensures StateAt(steps, r) == Busy ==> !LaterTouched(MarkUndo(steps), r)
  {
    SamePosition(steps, MarkUndo(steps), r);
    if Position(steps, r).Some? && StateAt(steps, r) == Busy {
      var p := Position(steps, r).value;
      forall j | p < j < |steps| ensures MarkUndo(steps)[j].state == Pending {
        assert Ordered(Phase.Applying, steps[p].state, steps[j].state);
      }
    }
  }

  /** What one step's resource owes when the journal moves it on. */
  lemma RecordedHolds(c: Case, w: World, t: Transition, at: nat, r: Resource, settled: bool)
    requires Journalled(c, w) && MayRecord(c, w, t) && Apply(w.op, t, at).Ok?
    requires t.Begin? || t.Complete? || t.BeginResourceUndo? || t.CompleteResourceUndo?
    requires t.r == r && Holds(c, w, r, StateAt(w.op.steps, r), settled)
    ensures var op := Apply(w.op, t, at).value;
      Holds(c, w.(op := op), r, StateAt(op.steps, r), settled)
  {
    hide Distinct, Shape, RevisionFits, Follows, AllIn;
    var i := Position(w.op.steps, r).value;
    var op := Apply(w.op, t, at).value;
    assert Distinct(w.op.steps);
    StateAfterMove(w.op.steps, i, op.steps[i].state, r);
  }

  lemma HoldsIgnoresProgress(c: Case, w: World, op: Operation, r: Resource, s: StepState, settled: bool)
    requires op.id == w.op.id && op.startedAt == w.op.startedAt
    requires Holds(c, w, r, s, settled)
    ensures Holds(c, w.(op := op), r, s, settled)
  {
  }

  lemma JournalledStays(c: Case, w: World, t: Transition, at: nat)
    requires Journalled(c, w) && Apply(w.op, t, at).Ok?
    ensures Journalled(c, w.(op := Apply(w.op, t, at).value))
  {
    hide Operations.Valid, Plan;
    ApplyKeepsValid(w.op, t, at);
    ApplyAdvances(w.op, t, at);
  }

  /** A transition of one step leaves the other resources' obligations alone. */
  lemma MovedElsewhere(op: Operation, t: Transition, at: nat, r: Resource)
    requires Operations.Valid(op) && Apply(op, t, at).Ok?
    requires t.Begin? || t.Complete? || t.BeginResourceUndo? || t.CompleteResourceUndo?
    ensures var next := Apply(op, t, at).value;
      && (t.r != r ==> StateAt(next.steps, r) == StateAt(op.steps, r))
      && (!t.Begin? ==> LaterTouched(next.steps, r) == LaterTouched(op.steps, r))
      && (t.Begin? ==> StateAt(next.steps, r) != UndoPending)
  {
    hide RevisionFits, LaterTouched;
    var i := Position(op.steps, t.r).value;
    var next := Apply(op, t, at).value;
    StateAfterMove(op.steps, i, next.steps[i].state, r);
    if !t.Begin? { TouchedAfterMove(op.steps, i, next.steps[i].state, r); }
  }

  lemma UnsettledHolds(c: Case, w: World, r: Resource, s: StepState, settled: bool, settled': bool)
    requires Holds(c, w, r, s, settled) && (s == UndoPending ==> settled' ==> settled)
    ensures Holds(c, w, r, s, settled')
  {
  }

  lemma MoveKeepsInv(c: Case, w: World, t: Transition, at: nat)
    requires Inv(c, w) && MayRecord(c, w, t) && Apply(w.op, t, at).Ok?
    requires t.Begin? || t.Complete? || t.BeginResourceUndo? || t.CompleteResourceUndo?
    ensures Inv(c, w.(op := Apply(w.op, t, at).value))
  {
    hide Holds, Apply, StateAt, LaterTouched, Operations.Valid, MayRecord, Plan;
    var op := Apply(w.op, t, at).value;
    JournalledStays(c, w, t, at);
    ApplyAdvances(w.op, t, at);
    forall r ensures Holds(c, w.(op := op), r, StateAt(op.steps, r), LaterTouched(op.steps, r)) {
      var settled := LaterTouched(w.op.steps, r);
      MovedElsewhere(w.op, t, at, r);
      if r == t.r {
        RecordedHolds(c, w, t, at, r, settled);
      } else {
        HoldsIgnoresProgress(c, w, op, r, StateAt(w.op.steps, r), settled);
      }
      UnsettledHolds(c, w.(op := op), r, StateAt(op.steps, r), settled, LaterTouched(op.steps, r));
    }
  }

  lemma MarkedHolds(c: Case, w: World, r: Resource, s: StepState, settled: bool, settled': bool)
    requires Holds(c, w, r, s, settled) && s in {Pending, Busy, Applied} && (s == Busy ==> !settled')
    ensures Holds(c, w, r, if s in {Busy, Applied} then UndoPending else s, settled')
  {
  }

  lemma MarkKeepsInv(c: Case, w: World, at: nat)
    requires Inv(c, w) && Apply(w.op, BeginUndo, at).Ok?
    ensures Inv(c, w.(op := Apply(w.op, BeginUndo, at).value))
  {
    hide Holds, LaterTouched, StateAt, Follows, Distinct, Shape, RevisionFits;
    var op := Apply(w.op, BeginUndo, at).value;
    JournalledStays(c, w, BeginUndo, at);
    forall r ensures Holds(c, w.(op := op), r, StateAt(op.steps, r), LaterTouched(op.steps, r)) {
      StateAfterMark(w.op.steps, r);
      HoldsIgnoresProgress(c, w, op, r, StateAt(w.op.steps, r), LaterTouched(w.op.steps, r));
      MarkedHolds(c, w.(op := op), r, StateAt(w.op.steps, r), LaterTouched(w.op.steps, r), LaterTouched(op.steps, r));
    }
  }

  lemma EndKeepsInv(c: Case, w: World, t: Transition, at: nat)
    requires Inv(c, w) && (t == Commit || t == FinishUndo) && Apply(w.op, t, at).Ok?
    ensures Inv(c, w.(op := Apply(w.op, t, at).value))
  {
    hide Holds, LaterTouched, StateAt, Plan, Operations.Valid;
    var op := Apply(w.op, t, at).value;
    JournalledStays(c, w, t, at);
    forall r ensures Holds(c, w.(op := op), r, StateAt(op.steps, r), LaterTouched(op.steps, r)) {
      HoldsIgnoresProgress(c, w, op, r, StateAt(w.op.steps, r), LaterTouched(w.op.steps, r));
    }
  }

  // ---------------------------------------------------------------- resource writes

  lemma WriteHolds(c: Case, w: World, e: Effect, r: Resource, s: StepState, settled: bool)
    requires w.op.kind == Install && Perform(c, w, e).Some?
    requires Holds(c, w, r, s, settled)
    requires r == ResourceOf(e) ==> InFlight(s)
    requires e.Provision? || e.Prepare? || e.Activate? || e.SaveSecret? || e.SaveClient? || e.Deliver? ==>
      !Removing(w.op) && s in {Pending, Busy, Applied}
    requires e.Retain? || e.Remove? || e.Deactivate? || e.Withdraw? || e.Revoke? || e.DropSecret? ==>
      s in {Pending, UndoPending, Undoing, Undone}
    ensures Holds(c, Perform(c, w, e).value, r, s, settled)
  {
  }

  lemma EnabledStates(op: Operation, e: Effect, r: Resource)
    requires Operations.Valid(op) && op.kind == Install && Enabled(op, e)
    ensures StateAt(op.steps, r)
         in (if Removing(op) then {Pending, UndoPending, Undoing, Undone} else {Pending, Busy, Applied})
  {
    hide RevisionFits, Distinct;
    var i := Position(op.steps, ResourceOf(e)).value;
    assert Rank(op.phase, op.steps[i].state) < 9;
  }

  lemma WriteKeepsInv(c: Case, w: World, e: Effect)
    requires Inv(c, w) && Enabled(w.op, e) && Perform(c, w, e).Some?
    ensures Inv(c, Perform(c, w, e).value)
  {
    hide Holds, LaterTouched, StateAt, Follows, Operations.Valid;
    var w' := Perform(c, w, e).value;
    forall r ensures Holds(c, w', r, StateAt(w'.op.steps, r), LaterTouched(w'.op.steps, r)) {
      EnabledStates(w.op, e, r);
      WriteHolds(c, w, e, r, StateAt(w.op.steps, r), LaterTouched(w.op.steps, r));
    }
  }

  lemma ForeignKeepsInv(c: Case, w: World, p: Platform)
    requires Inv(c, w) && Own(p, c.app) == Own(w.snapshot, c.app)
    ensures Inv(c, w.(snapshot := p))
  {
    hide StateAt, LaterTouched, Own, Lists, Omits;
    OwnDecides(p, w.snapshot, c.app);
    var w' := w.(snapshot := p);
    forall r ensures Holds(c, w', r, StateAt(w'.op.steps, r), LaterTouched(w'.op.steps, r)) {
      assert Holds(c, w, r, StateAt(w.op.steps, r), LaterTouched(w.op.steps, r));
    }
  }

  // ---------------------------------------------------------------- every run

  lemma DoKeepsInv(c: Case, w: World, m: Turn)
    requires Inv(c, w) && Do(c, w, m).Some?
    ensures Inv(c, Do(c, w, m).value)
  {
    hide Inv, Apply, Perform, Enabled, MayRecord, Own;
    match m {
      case Journal(t, at) =>
        match t {
          case BeginUndo => MarkKeepsInv(c, w, at);
          case Commit => EndKeepsInv(c, w, t, at);
          case FinishUndo => EndKeepsInv(c, w, t, at);
          case _ => MoveKeepsInv(c, w, t, at);
        }
      case Write(e) => WriteKeepsInv(c, w, e);
      case Foreign(p) => ForeignKeepsInv(c, w, p);
    }
  }

  lemma {:induction false} RunKeepsInv(c: Case, w: World, run: seq<Turn>)
    requires Inv(c, w) && Exec(c, w, run).Some?
    ensures Inv(c, Exec(c, w, run).value)
    decreases |run|
  {
    hide Inv, Do;
    if run != [] {
      DoKeepsInv(c, w, run[0]);
      RunKeepsInv(c, Do(c, w, run[0]).value, run[1..]);
    }
  }

  lemma StartHolds(c: Case, w: World)
    requires Starts(c, w)
    ensures Inv(c, w)
  {
    forall r ensures StateAt(w.op.steps, r) == Pending && Holds(c, w, r, Pending, LaterTouched(w.op.steps, r)) {
    }
  }

  // ---------------------------------------------------------------- order of the plan

  function Index(r: Resource): nat {
    match r
    case AppDatabases => 0
    case RuntimeInstance => 1
    case OidcClient => 2
    case RuntimeActivation => 3
    case PlatformSnapshot => 4
  }

  predicate Planned(app: App, r: Resource) {
    match r
    case AppDatabases => app.databases != []
    case OidcClient => app.oidc.Some?
    case RuntimeActivation => app.activates
    case _ => true
  }

  lemma PlanSorted(app: App)
    ensures var plan := Plan(app, Install);
      && (forall i, j :: 0 <= i < j < |plan| ==> Index(plan[i]) < Index(plan[j]))
      && (forall r :: Planned(app, r) <==> r in plan)
  {
    var databases := if app.databases == [] then [] else [AppDatabases];
    var oidc := if app.oidc.None? then [] else [OidcClient];
    var activation := if app.activates then [RuntimeActivation] else [];
    assert Plan(app, Install) == databases + [RuntimeInstance] + oidc + activation + [PlatformSnapshot];
  }

  /** Planned resources stand in install order. */
  lemma PlannedBefore(c: Case, w: World, r: Resource, later: Resource)
    requires Journalled(c, w) && Planned(c.app, r) && Planned(c.app, later) && Index(r) < Index(later)
    ensures Position(w.op.steps, r).Some? && Position(w.op.steps, later).Some?
    ensures Position(w.op.steps, r).value < Position(w.op.steps, later).value
    ensures Ordered(w.op.phase, StateAt(w.op.steps, r), StateAt(w.op.steps, later))
    ensures StateAt(w.op.steps, later) != Pending ==> LaterTouched(w.op.steps, r)
  {
    hide Plan, RevisionFits, Distinct;
    PlanSorted(c.app);
    var plan := Plan(c.app, Install);
    var i :| 0 <= i < |plan| && plan[i] == r;
    var j :| 0 <= j < |plan| && plan[j] == later;
    assert w.op.steps[i].resource == r && w.op.steps[j].resource == later;
    var p, q := Position(w.op.steps, r).value, Position(w.op.steps, later).value;
    assert plan[p] == r && plan[q] == later;
  }

  lemma UnplannedIsPending(c: Case, w: World, r: Resource)
    requires Journalled(c, w)
    ensures StateAt(w.op.steps, r) != Pending ==> Planned(c.app, r)
    ensures Rank(w.op.phase, StateAt(w.op.steps, r)) < 9 || !Planned(c.app, r)
  {
    hide Plan, RevisionFits, Distinct;
    PlanSorted(c.app);
    if Position(w.op.steps, r).Some? {
      var i := Position(w.op.steps, r).value;
      assert Plan(c.app, Install)[i] == r;
    }
  }

  /** A step whose successor in the plan has been touched, and not undone, is
      itself in place. */
  lemma EarlierInPlace(c: Case, w: World, r: Resource, later: Resource)
    requires Inv(c, w) && Planned(c.app, r) && Planned(c.app, later) && Index(r) < Index(later)
    requires StateAt(w.op.steps, later) != Pending && StateAt(w.op.steps, later) != Undone
    ensures Reached(c, w, r)
  {
    hide StateAt, LaterTouched, Plan, Operations.Valid, Follows;
    PlannedBefore(c, w, r, later);
    UnplannedIsPending(c, w, r);
    UnplannedIsPending(c, w, later);
    var s := StateAt(w.op.steps, r);
    assert Holds(c, w, r, s, LaterTouched(w.op.steps, r));
    assert s == Applied || s == UndoPending;
    SettledReached(c, w, r, s);
  }

  lemma SettledReached(c: Case, w: World, r: Resource, s: StepState)
    requires Holds(c, w, r, s, true) && r != PlatformSnapshot && (s == Applied || s == UndoPending)
    requires c.app.databases == [] ==> r != AppDatabases
    ensures Reached(c, w, r)
  {
    if r == AppDatabases {
      FreshMatches(c.app);
    }
  }

  lemma FreshMatches(app: App)
    ensures D.ProvisionRefusal(FreshDatabases(app), Bindings(app)) == None
  {
  }

  // ---------------------------------------------------------------- theorems

  /** App code runs only while its declared confidential secret is delivered,
      and the runtime is never removed while app code runs. */
  lemma SecretBeforeCode(c: Case, w: World, run: seq<Turn>)
    requires Starts(c, w) && Exec(c, w, run).Some?
    ensures var w' := Exec(c, w, run).value;
      && (w'.runtime.Running? && c.app.oidc.Some? && c.app.oidc.value.confidential ==> Delivered(c, w'))
      && (Enabled(w'.op, Remove) ==> !w'.runtime.Running?)
  {
    hide Starts, Exec;
    StartHolds(c, w);
    RunKeepsInv(c, w, run);
    Covered(c, Exec(c, w, run).value);
  }

  lemma Covered(c: Case, w: World)
    requires Inv(c, w)
    ensures w.runtime.Running? && c.app.oidc.Some? && c.app.oidc.value.confidential ==> Delivered(c, w)
    ensures Enabled(w.op, Remove) ==> !w.runtime.Running?
  {
    hide StateAt, Inv, Ordered, InFlight, Delivered;
    if w.runtime.Running? {
      RunningMeansTouched(c, w);
      if c.app.oidc.Some? {
        EarlierInPlace(c, w, OidcClient, RuntimeActivation);
      }
      NotRemovable(c, w);
    }
  }

  lemma NotRemovable(c: Case, w: World)
    requires Inv(c, w) && w.runtime.Running?
    ensures !Enabled(w.op, Remove)
  {
    hide StateAt, LaterTouched, Plan, Operations.Valid, Follows, ResourcesHold;
    RunningMeansTouched(c, w);
    PlannedBefore(c, w, RuntimeInstance, RuntimeActivation);
    UnplannedIsPending(c, w, RuntimeActivation);
    UnplannedIsPending(c, w, RuntimeInstance);
  }

  lemma RunningMeansTouched(c: Case, w: World)
    requires Inv(c, w) && w.runtime.Running?
    ensures Planned(c.app, RuntimeActivation)
    ensures StateAt(w.op.steps, RuntimeActivation) != Pending && StateAt(w.op.steps, RuntimeActivation) != Undone
  {
    UnplannedIsPending(c, w, RuntimeActivation);
    assert Holds(c, w, RuntimeActivation, StateAt(w.op.steps, RuntimeActivation),
                 LaterTouched(w.op.steps, RuntimeActivation));
  }

  /** Every other resource of the app is in place. */
  predicate InPlace(c: Case, w: World) {
    && (c.app.databases != [] ==> Reached(c, w, AppDatabases))
    && Reached(c, w, RuntimeInstance)
    && (c.app.oidc.Some? ==> Reached(c, w, OidcClient))
    && (c.app.activates ==> Reached(c, w, RuntimeActivation))
  }

  lemma VisibleInPlace(c: Case, w: World)
    requires Inv(c, w) && c.app.installation in w.snapshot.apps
    ensures InPlace(c, w)
  {
    hide StateAt, LaterTouched, Reached, Operations.Valid, Follows;
    var s := StateAt(w.op.steps, PlatformSnapshot);
    assert Holds(c, w, PlatformSnapshot, s, LaterTouched(w.op.steps, PlatformSnapshot));
    assert s != Pending && s != Undone;
    if c.app.databases != [] { EarlierInPlace(c, w, AppDatabases, PlatformSnapshot); }
    EarlierInPlace(c, w, RuntimeInstance, PlatformSnapshot);
    if c.app.oidc.Some? { EarlierInPlace(c, w, OidcClient, PlatformSnapshot); }
    if c.app.activates { EarlierInPlace(c, w, RuntimeActivation, PlatformSnapshot); }
  }

  /** Whenever the stored snapshot names the app, all its other resources are in
      place, whichever way the operation is travelling; and every revision the
      journal stores decodes. */
  lemma VisibleMeansComplete(c: Case, w: World, run: seq<Turn>)
    requires Starts(c, w) && Exec(c, w, run).Some?
    ensures var w' := Exec(c, w, run).value;
      && (c.app.installation in w'.snapshot.apps ==> InPlace(c, w'))
      && Shape(w'.op.phase, w'.op.steps) && Restore(w'.op) == Ok(w'.op)
  {
    hide Exec, InPlace, Operations.Valid, Shape, Restore;
    StartHolds(c, w);
    RunKeepsInv(c, w, run);
    var w' := Exec(c, w, run).value;
    if c.app.installation in w'.snapshot.apps { VisibleInPlace(c, w'); }
    ShapeOf(w'.op);
  }

  lemma ShapeOf(op: Operation)
    requires Operations.Valid(op)
    ensures Shape(op.phase, op.steps) && Restore(op) == Ok(op)
  {
    ValidDecodes(op);
  }

  /** The world one uninterrupted install leaves, given the values it drew at
      random, the address it resolved, the time it finished and what the snapshot
      says of other apps. */
  function Installed(c: Case, clientId: nat, redirect: string, secret: nat, at: nat, snapshot: Platform): World {
    var plan := Plan(c.app, Install);
    var sealed := if c.app.oidc.Some? && c.app.oidc.value.confidential then Some(secret) else None;
    World(
      c.start.op.(phase := Committed, steps := AllApplied(plan), revision := 2 * |plan| + 1, updatedAt := at),
      if c.app.databases == [] then NoDirs else FreshDatabases(c.app),
      if c.app.activates then Running(c.app) else Prepared(c.app),
      if c.app.oidc.Some? then Some(BuildClient(c.app, clientId, redirect, sealed, c.start.op.startedAt)) else None,
      sealed,
      if sealed.Some? then Some(Delivery(c.start.op.id, clientId, secret)) else None,
      snapshot)
  }

  /** The world is one that an uninterrupted install leaves. */
  ghost predicate IsInstalled(c: Case, w: World) {
    && Lists(w.snapshot, c.app)
    && exists id, redirect, secret :: w == Installed(c, id, redirect, secret, w.op.updatedAt, w.snapshot)
  }

  lemma CommittedOp(c: Case, w: World)
    requires Journalled(c, w) && w.op.phase == Committed
    ensures w.op == c.start.op.(phase := Committed, steps := AllApplied(Plan(c.app, Install)),
      revision := 2 * |w.op.steps| + 1, updatedAt := w.op.updatedAt)
    ensures forall r :: StateAt(w.op.steps, r) == if Planned(c.app, r) then Applied else Pending
  {
    hide Plan, Distinct;
    forall i | 0 <= i < |w.op.steps| ensures w.op.steps[i].state == Applied {
      assert Rank(Committed, w.op.steps[i].state) < 9;
    }
    assert w.op.steps == AllApplied(Plan(c.app, Install));
    forall r ensures StateAt(w.op.steps, r) == if Planned(c.app, r) then Applied else Pending {
      UnplannedIsPending(c, w, r);
    }
  }

  /** However often an install was interrupted and resumed, when it commits the
      durable world is the one an uninterrupted install leaves: one client, one
      secret whose digest the client holds, exactly the declared databases. What
      the snapshot says of other apps changes only if others store snapshots
      meanwhile or the install was staged from an outdated one. */
  lemma InstallConverges(c: Case, w: World, run: seq<Turn>)
    requires Starts(c, w) && Exec(c, w, run).Some? && Exec(c, w, run).value.op.phase == Committed
    ensures IsInstalled(c, Exec(c, w, run).value)
    ensures Alone(c, w, run) ==> Without(Exec(c, w, run).value.snapshot, c.app) == Without(w.snapshot, c.app)
  {
    hide Starts, Exec, IsInstalled, Alone, Without;
    StartHolds(c, w);
    RunKeepsInv(c, w, run);
    CommittedIsInstalled(c, Exec(c, w, run).value);
    if Alone(c, w, run) { AloneKeepsRest(c, w, run); }
  }

  lemma CommittedIsInstalled(c: Case, w: World)
    requires Inv(c, w) && w.op.phase == Committed
    ensures IsInstalled(c, w)
  {
    hide StateAt, LaterTouched, Operations.Valid, Plan;
    CommittedOp(c, w);
    var clientId := if w.client.Some? then w.client.value.id else 0;
    var redirect := if w.client.Some? then w.client.value.redirect else "";
    var secret := if w.secret.Some? then w.secret.value else 0;
    assert Holds(c, w, AppDatabases, StateAt(w.op.steps, AppDatabases), LaterTouched(w.op.steps, AppDatabases));
    assert Holds(c, w, RuntimeInstance, StateAt(w.op.steps, RuntimeInstance),
                 LaterTouched(w.op.steps, RuntimeInstance));
    assert Holds(c, w, OidcClient, StateAt(w.op.steps, OidcClient), LaterTouched(w.op.steps, OidcClient));
    assert Holds(c, w, RuntimeActivation, StateAt(w.op.steps, RuntimeActivation),
                 LaterTouched(w.op.steps, RuntimeActivation));
    assert Holds(c, w, PlatformSnapshot, StateAt(w.op.steps, PlatformSnapshot),
                 LaterTouched(w.op.steps, PlatformSnapshot));
    assert w == Installed(c, clientId, redirect, secret, w.op.updatedAt, w.snapshot);
  }

  // ---------------------------------------------------------------- compensation

  /** Nothing of the installation is left in use. Databases that had been made
      active are kept aside. */
  predicate Withdrawn(c: Case, w: World) {
    && (w.dirs == NoDirs || w.dirs == D.Dirs(None, None, Some(D.Created(Files(c.app)))))
    && w.runtime.Absent?
    && w.delivery.None? && w.secret.None? && !Live(w.client)
    && Omits(w.snapshot, c.app)
  }

  /** Whichever step had failed or was left ambiguous, a finished compensation
      leaves nothing behind, and a step that was never begun never had an
      effect. */
  lemma CompensationCompletes(c: Case, w: World, run: seq<Turn>)
    requires Starts(c, w) && Exec(c, w, run).Some? && Exec(c, w, run).value.op.phase == Compensated
    ensures var w' := Exec(c, w, run).value;
      && Withdrawn(c, w')
      && (StateAt(w'.op.steps, OidcClient) == Pending ==> w'.client.None?)
      && (StateAt(w'.op.steps, AppDatabases) == Pending ==> w'.dirs == NoDirs)
  {
    hide Starts, Exec;
    StartHolds(c, w);
    RunKeepsInv(c, w, run);
    CompensatedIsWithdrawn(c, Exec(c, w, run).value);
  }

  lemma CompensatedStates(c: Case, w: World, r: Resource)
    requires Journalled(c, w) && w.op.phase == Compensated
    ensures StateAt(w.op.steps, r) == Pending || StateAt(w.op.steps, r) == Undone
  {
    UnplannedIsPending(c, w, r);
  }

  lemma CompensatedIsWithdrawn(c: Case, w: World)
    requires Inv(c, w) && w.op.phase == Compensated
    ensures Withdrawn(c, w)
    ensures StateAt(w.op.steps, OidcClient) == Pending ==> w.client.None?
    ensures StateAt(w.op.steps, AppDatabases) == Pending ==> w.dirs == NoDirs
  {
    hide StateAt, LaterTouched, Operations.Valid, Plan;
    forall r ensures StateAt(w.op.steps, r) == Pending || StateAt(w.op.steps, r) == Undone {
      CompensatedStates(c, w, r);
    }
    assert Holds(c, w, AppDatabases, StateAt(w.op.steps, AppDatabases), LaterTouched(w.op.steps, AppDatabases));
    assert Holds(c, w, RuntimeInstance, StateAt(w.op.steps, RuntimeInstance),
                 LaterTouched(w.op.steps, RuntimeInstance));
    assert Holds(c, w, OidcClient, StateAt(w.op.steps, OidcClient), LaterTouched(w.op.steps, OidcClient));
    assert Holds(c, w, PlatformSnapshot, StateAt(w.op.steps, PlatformSnapshot),
                 LaterTouched(w.op.steps, PlatformSnapshot));
  }

  /** Compensation began while a crash had left half-built databases staged. */
  predicate StagedBehind(w: World) {
    w.op.phase == Compensating && D.StateOf(w.dirs) == D.Staged
  }

  lemma StagedBehindStays(c: Case, w: World, m: Turn)
    requires Inv(c, w) && StagedBehind(w) && Do(c, w, m).Some?
    ensures StagedBehind(Do(c, w, m).value)
  {
    hide LaterTouched, Follows, Operations.Valid;
    var s := StateAt(w.op.steps, AppDatabases);
    assert Holds(c, w, AppDatabases, s, LaterTouched(w.op.steps, AppDatabases));
  }

  /** Retaining refuses staged databases, so such a compensation never finishes:
      no run from there reaches a terminal operation. */
  lemma {:induction false} StagedCompensationNeverFinishes(c: Case, w: World, run: seq<Turn>)
    requires Inv(c, w) && StagedBehind(w) && Exec(c, w, run).Some?
    ensures StagedBehind(Exec(c, w, run).value) && !Terminal(Exec(c, w, run).value.op)
    decreases |run|
  {
    hide Inv, Do, StagedBehind;
    if run != [] {
      StagedBehindStays(c, w, run[0]);
      DoKeepsInv(c, w, run[0]);
      StagedCompensationNeverFinishes(c, Do(c, w, run[0]).value, run[1..]);
    } else {
      NotTerminal(w);
    }
  }

  lemma NotTerminal(w: World)
    requires StagedBehind(w)
    ensures !Terminal(w.op)
  {
  }
}
