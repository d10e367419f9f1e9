/** What every run of an uninstall keeps. */
module SagaUninstall {
  import opened Wrappers
  import opened Operations
  import opened Saga
  import D = Databases

  /** Running app code has its declared secret: the stored client verifies the
      stored secret and that pair was delivered. */
  predicate Covered(app: App, w: World) {
    w.runtime.Running? && app.oidc.Some? && app.oidc.value.confidential ==>
      && w.delivery.Some? && w.secret.Some? && Live(w.client)
      && w.client.value.digest == Some(Sha256(w.secret.value))
      && w.delivery.value.client == w.client.value.id && w.delivery.value.secret == w.secret.value
  }

  /** Any world an uninstall may start from: the app is on the platform and its
      databases are not half built. */
  predicate Starts(c: Case, w: World) {
    && c.start == w
    && Operations.Valid(w.op) && w.op.kind == Uninstall && w.op.phase == Phase.Applying && w.op.revision == 0
    && w.op.steps == Fresh(Plan(c.app, Uninstall))
    && D.Exclusive(w.dirs) && w.dirs.staging.None?
    && (c.app.oidc.None? ==> w.delivery.None? && w.secret.None? && !Live(w.client))
    && (c.app.databases == [] ==> w.dirs.active.None?)
    && Covered(c.app, w)
  }

  function Stopped(r: Runtime): Runtime {
    if r.Running? then Prepared(r.app) else r
  }

  function Retired(d: D.Dirs): D.Dirs {
    if d.active.Some? then D.Dirs(None, None, d.active) else d
  }

  predicate ActivationHolds(c: Case, w: World, s: StepState) {
    match s
    case Pending => w.runtime == c.start.runtime
    case Busy => w.runtime == c.start.runtime || w.runtime == Stopped(c.start.runtime)
    case Applied => w.runtime == Stopped(c.start.runtime) || w.runtime == Absent
    case _ => false
  }

  predicate InstanceHolds(c: Case, w: World, s: StepState) {
    match s
    case Pending => w.runtime == c.start.runtime || w.runtime == Stopped(c.start.runtime)
    case Busy => w.runtime == Stopped(c.start.runtime) || w.runtime == Absent
    case Applied => w.runtime == Absent
    case _ => false
  }

  /** Delivery, client, secret: each is gone only after the one before it. */
  predicate OidcHolds(c: Case, w: World, s: StepState) {
    var revoked := RevokedAt(c.start.client, c.start.op.startedAt);
    match s
    case Pending => w.client == c.start.client && w.secret == c.start.secret && w.delivery == c.start.delivery
    case Busy =>
      && (w.delivery == c.start.delivery || w.delivery.None?)
      && (w.client == c.start.client || (w.client == revoked && w.delivery.None?))
      && (w.secret == c.start.secret || (w.secret.None? && w.client == revoked && w.delivery.None?))
    case Applied => w.client == revoked && w.secret.None? && w.delivery.None?
    case _ => false
  }

  predicate DatabasesHold(c: Case, w: World, s: StepState) {
    match s
    case Pending => w.dirs == c.start.dirs
    case Busy => w.dirs == c.start.dirs || w.dirs == Retired(c.start.dirs)
    case Applied => w.dirs == Retired(c.start.dirs)
    case _ => false
  }

  predicate SnapshotHolds(c: Case, w: World, s: StepState) {
    match s
    case Pending => Own(w.snapshot, c.app) == Own(c.start.snapshot, c.app)
    case Busy => Own(w.snapshot, c.app) == Own(c.start.snapshot, c.app) || Omits(w.snapshot, c.app)
    case Applied => Omits(w.snapshot, c.app)
    case _ => false
  }

  predicate Holds(c: Case, w: World, r: Resource, s: StepState) {
    match r
    case AppDatabases => DatabasesHold(c, w, s)
    case RuntimeInstance => InstanceHolds(c, w, s)
    case OidcClient => OidcHolds(c, w, s)
    case RuntimeActivation => ActivationHolds(c, w, s)
    case PlatformSnapshot => SnapshotHolds(c, w, s)
  }

  predicate Journalled(c: Case, w: World) {
    && Operations.Valid(w.op) && w.op.kind == c.start.op.kind == Uninstall
    && (w.op.phase == Phase.Applying || w.op.phase == Committed)
    && w.op.id == c.start.op.id && w.op.startedAt == c.start.op.startedAt
    && Follows(w.op.steps, Plan(c.app, Uninstall))
  }

  predicate CleanStart(c: Case) {
    D.Exclusive(c.start.dirs) && c.start.dirs.staging.None? && Covered(c.app, c.start)
  }

  predicate Inv(c: Case, w: World) {
    && CleanStart(c) && Journalled(c, w)
    && forall r: Resource :: Holds(c, w, r, StateAt(w.op.steps, r))
  }

  // ---------------------------------------------------------------- order of the plan

  lemma PlanFacts(c: Case, w: World)
    requires Journalled(c, w)
    ensures Position(w.op.steps, RuntimeActivation) == Some(0)
    ensures Position(w.op.steps, RuntimeInstance).Some?
    ensures forall r :: var s := StateAt(w.op.steps, r); s == Pending || s == Busy || s == Applied
  {
    hide RevisionFits, Distinct, Plan;
    assert Plan(c.app, Uninstall)[0] == RuntimeActivation && RuntimeInstance in Plan(c.app, Uninstall) by {
      PlanShape(c.app);
    }
    var i :| 0 <= i < |Plan(c.app, Uninstall)| && Plan(c.app, Uninstall)[i] == RuntimeInstance;
    assert w.op.steps[i].resource == RuntimeInstance;
    forall r ensures var s := StateAt(w.op.steps, r); s == Pending || s == Busy || s == Applied {
      if Position(w.op.steps, r).Some? {
        assert Rank(w.op.phase, w.op.steps[Position(w.op.steps, r).value].state) < 9;
      }
    }
  }

  lemma PlanShape(app: App)
    ensures var plan := Plan(app, Uninstall);
      && |plan| > 0 && plan[0] == RuntimeActivation && RuntimeInstance in plan
      && (app.oidc.Some? <==> OidcClient in plan) && (app.databases != [] <==> AppDatabases in plan)
      && PlatformSnapshot in plan
  {
    var databases := if app.databases == [] then [] else [AppDatabases];
    var oidc := if app.oidc.None? then [] else [OidcClient];
    assert Plan(app, Uninstall) == [RuntimeActivation] + oidc + [RuntimeInstance] + databases + [PlatformSnapshot];
  }

  /** App code was stopped before any later step began. */
  lemma StoppedFirst(c: Case, w: World, r: Resource)
    requires Journalled(c, w) && r != RuntimeActivation && StateAt(w.op.steps, r) != Pending
    ensures StateAt(w.op.steps, RuntimeActivation) == Applied
  {
    hide RevisionFits, Distinct, Plan;
    PlanFacts(c, w);
    var i := Position(w.op.steps, r).value;
    assert Ordered(w.op.phase, w.op.steps[0].state, w.op.steps[i].state);
  }

  // ---------------------------------------------------------------- journal turns

  lemma JournalledStays(c: Case, w: World, t: Transition, at: nat)
    requires Journalled(c, w) && Apply(w.op, t, at).Ok? && MayRecord(c, w, t)
    ensures Journalled(c, w.(op := Apply(w.op, t, at).value))
  {
    hide Operations.Valid, Plan;
    ApplyKeepsValid(w.op, t, at);
    ApplyAdvances(w.op, t, at);
  }

  /** What one step's resource owes when the journal moves it on. */
  lemma RecordedHolds(c: Case, w: World, r: Resource, s: StepState, to: StepState)
    requires w.op.kind == Uninstall && Holds(c, w, r, s)
    requires s == Pending && r == RuntimeInstance ==> Holds(c, w, RuntimeActivation, Applied)
    requires s == Pending || (s == Busy && Gone(c, w, r))
    requires to == if s == Pending then Busy else Applied
    ensures Holds(c, w, r, to)
  {
  }

  lemma HoldsIgnoresProgress(c: Case, w: World, op: Operation, r: Resource, s: StepState)
    requires Holds(c, w, r, s)
    ensures Holds(c, w.(op := op), r, s)
  {
  }

  /** What a step transition does to the recorded states. */
  lemma Moved(c: Case, w: World, t: Transition, at: nat, r: Resource)
    requires Journalled(c, w) && Apply(w.op, t, at).Ok? && (t.Begin? || t.Complete?)
    ensures var next := Apply(w.op, t, at).value;
      && (t.r != r ==> StateAt(next.steps, r) == StateAt(w.op.steps, r))
      && (t.Begin? ==> StateAt(w.op.steps, t.r) == Pending && StateAt(next.steps, t.r) == Busy)
      && (t.Complete? ==> StateAt(w.op.steps, t.r) == Busy && StateAt(next.steps, t.r) == Applied)
      && (t.Begin? && t.r == RuntimeInstance ==> StateAt(w.op.steps, RuntimeActivation) == Applied)
  {
    hide RevisionFits, Plan, Shape;
    var i := Position(w.op.steps, t.r).value;
    var next := Apply(w.op, t, at).value;
    StateAfterMove(w.op.steps, i, next.steps[i].state, r);
    StateAfterMove(w.op.steps, i, next.steps[i].state, t.r);
    PlanFacts(c, w);
    if t.Begin? && t.r == RuntimeInstance {
      assert w.op.steps[..i][0].state == Applied;
    }
  }

  lemma MoveKeepsInv(c: Case, w: World, t: Transition, at: nat)
    requires Inv(c, w) && MayRecord(c, w, t) && Apply(w.op, t, at).Ok? && (t.Begin? || t.Complete?)
    ensures Inv(c, w.(op := Apply(w.op, t, at).value))
  {
    hide Holds, Apply, StateAt, Operations.Valid, Plan, CleanStart, Follows, Gone;
    var op := Apply(w.op, t, at).value;
    JournalledStays(c, w, t, at);
    forall r ensures Holds(c, w.(op := op), r, StateAt(op.steps, r)) {
      Moved(c, w, t, at, r);
      if r == t.r {
        RecordedHolds(c, w, r, StateAt(w.op.steps, r), StateAt(op.steps, r));
      }
      HoldsIgnoresProgress(c, w, op, r, StateAt(op.steps, r));
    }
  }

  lemma CommitKeepsInv(c: Case, w: World, at: nat)
    requires Inv(c, w) && Apply(w.op, Commit, at).Ok?
    ensures Inv(c, w.(op := Apply(w.op, Commit, at).value))
  {
    hide Holds, StateAt, Operations.Valid, Plan, CleanStart;
    JournalledStays(c, w, Commit, at);
    forall r ensures Holds(c, w.(op := Apply(w.op, Commit, at).value), r, StateAt(w.op.steps, r)) {
      HoldsIgnoresProgress(c, w, Apply(w.op, Commit, at).value, r, StateAt(w.op.steps, r));
    }
  }

  /** An uninstall has no way back. */
  lemma OnlyForward(c: Case, w: World, t: Transition, at: nat)
    requires Journalled(c, w) && MayRecord(c, w, t) && Apply(w.op, t, at).Ok?
    ensures t.Begin? || t.Complete? || t == Commit
  {
  }

  // ---------------------------------------------------------------- resource writes

  lemma WriteHolds(c: Case, w: World, e: Effect, r: Resource, s: StepState)
    requires CleanStart(c) && w.op.kind == Uninstall && w.op.startedAt == c.start.op.startedAt
    requires Removing(w.op) && Perform(c, w, e).Some?
    requires !(e.Provision? || e.Prepare? || e.Activate? || e.SaveSecret? || e.SaveClient? || e.Deliver?)
    requires Holds(c, w, r, s)
    requires r == ResourceOf(e) ==> s == Busy
    requires e == Remove && r == RuntimeActivation ==> s == Applied
    ensures Holds(c, Perform(c, w, e).value, r, s)
  {
  }

  lemma WriteKeepsInv(c: Case, w: World, e: Effect)
    requires Inv(c, w) && Enabled(w.op, e) && Perform(c, w, e).Some?
    ensures Inv(c, Perform(c, w, e).value)
  {
    hide Holds, StateAt, Follows, Operations.Valid, CleanStart, Plan;
    var w' := Perform(c, w, e).value;
    PlanFacts(c, w);
    forall r ensures Holds(c, w', r, StateAt(w'.op.steps, r)) {
      if e == Remove { StoppedFirst(c, w, RuntimeInstance); }
      WriteHolds(c, w, e, r, StateAt(w.op.steps, r));
    }
  }

  lemma ForeignKeepsInv(c: Case, w: World, p: Platform)
    requires Inv(c, w) && Own(p, c.app) == Own(w.snapshot, c.app)
    ensures Inv(c, w.(snapshot := p))
  {
    hide StateAt, Own, Omits, Operations.Valid, Plan, CleanStart, Follows;
    OwnDecides(p, w.snapshot, c.app);
    var w' := w.(snapshot := p);
    forall r ensures Holds(c, w', r, StateAt(w'.op.steps, r)) {
      assert Holds(c, w, r, StateAt(w.op.steps, r));
    }
  }

  // ---------------------------------------------------------------- every run

  lemma DoKeepsInv(c: Case, w: World, m: Turn)
    requires Inv(c, w) && Do(c, w, m).Some?
    ensures Inv(c, Do(c, w, m).value)
  {
    hide Apply, Perform, Enabled, MayRecord, Operations.Valid, Follows, Holds, CleanStart, Own;
    match m {
      case Journal(t, at) =>
        OnlyForward(c, w, t, at);
        if t == Commit { CommitKeepsInv(c, w, at); } else { MoveKeepsInv(c, w, t, at); }
      case Write(e) => WriteKeepsInv(c, w, e);
      case Foreign(p) => ForeignKeepsInv(c, w, p);
    }
  }

  lemma {:induction false} RunKeepsInv(c: Case, w: World, run: seq<Turn>)
    requires Inv(c, w) && Exec(c, w, run).Some?
    ensures Inv(c, Exec(c, w, run).value)
    decreases |run|
  {
    hide Inv, Do;
    if run != [] {
      DoKeepsInv(c, w, run[0]);
      RunKeepsInv(c, Do(c, w, run[0]).value, run[1..]);
    }
  }

  lemma StartHolds(c: Case, w: World)
    requires Starts(c, w)
    ensures Inv(c, w)
  {
    hide Plan, Operations.Valid;
    forall r ensures StateAt(w.op.steps, r) == Pending && Holds(c, w, r, Pending) {
    }
  }

  // ---------------------------------------------------------------- theorems

  /** The app's data as the uninstall found it, in use or kept aside. */
  predicate DataKept(c: Case, w: World) {
    D.Exclusive(w.dirs) && D.Held(w.dirs) == D.Held(c.start.dirs)
  }

  /** At every point of every uninstall: running app code still has its secret,
      the runtime is never removed while app code runs, and the app's data is
      where it was or kept aside, bit for bit. */
  lemma UninstallIsSafe(c: Case, w: World, run: seq<Turn>)
    requires Starts(c, w) && Exec(c, w, run).Some?
    ensures var w' := Exec(c, w, run).value;
      Covered(c.app, w') && (Enabled(w'.op, Remove) ==> !w'.runtime.Running?) && DataKept(c, w')
  {
    hide Starts, Exec, Covered, Enabled, DataKept, Inv;
    StartHolds(c, w);
    RunKeepsInv(c, w, run);
    StaysCovered(c, Exec(c, w, run).value);
    StaysKept(c, Exec(c, w, run).value);
  }

  lemma StaysCovered(c: Case, w: World)
    requires Inv(c, w)
    ensures Covered(c.app, w) && (Enabled(w.op, Remove) ==> !w.runtime.Running?)
  {
    hide StateAt, Follows, Operations.Valid, Plan;
    assert Holds(c, w, RuntimeActivation, StateAt(w.op.steps, RuntimeActivation));
    assert Holds(c, w, OidcClient, StateAt(w.op.steps, OidcClient));
    if w.runtime.Running? {
      assert StateAt(w.op.steps, RuntimeActivation) != Applied;
      if StateAt(w.op.steps, OidcClient) != Pending { StoppedFirst(c, w, OidcClient); }
      if StateAt(w.op.steps, RuntimeInstance) != Pending { StoppedFirst(c, w, RuntimeInstance); }
    }
  }

  lemma StaysKept(c: Case, w: World)
    requires Inv(c, w)
    ensures DataKept(c, w)
  {
    hide StateAt, Follows, Operations.Valid, Plan;
    assert Holds(c, w, AppDatabases, StateAt(w.op.steps, AppDatabases));
  }

  /** The world one uninterrupted uninstall leaves, given the time it finished
      and what the snapshot says of other apps. */
  function Uninstalled(c: Case, at: nat, snapshot: Platform): World {
    var plan := Plan(c.app, Uninstall);
    World(
      c.start.op.(phase := Committed, steps := AllApplied(plan), revision := 2 * |plan| + 1, updatedAt := at),
      if c.app.databases == [] then c.start.dirs else Retired(c.start.dirs),
      Absent,
      if c.app.oidc.None? then c.start.client else RevokedAt(c.start.client, c.start.op.startedAt),
      if c.app.oidc.None? then c.start.secret else None,
      if c.app.oidc.None? then c.start.delivery else None,
      snapshot)
  }

  predicate IsUninstalled(c: Case, w: World) {
    Omits(w.snapshot, c.app) && w == Uninstalled(c, w.op.updatedAt, w.snapshot)
  }

  lemma CommittedOp(c: Case, w: World)
    requires Journalled(c, w) && w.op.phase == Committed
    ensures w.op == c.start.op.(phase := Committed, steps := AllApplied(Plan(c.app, Uninstall)),
      revision := 2 * |w.op.steps| + 1, updatedAt := w.op.updatedAt)
    ensures forall r :: StateAt(w.op.steps, r) == if r in Plan(c.app, Uninstall) then Applied else Pending
  {
    hide Plan, Distinct;
    forall i | 0 <= i < |w.op.steps| ensures w.op.steps[i].state == Applied {
      assert Rank(Committed, w.op.steps[i].state) < 9;
    }
    var plan := Plan(c.app, Uninstall);
    assert w.op.steps == AllApplied(plan);
    forall r ensures StateAt(w.op.steps, r) == if r in plan then Applied else Pending {
      if r in plan {
        var i :| 0 <= i < |plan| && plan[i] == r;
        assert w.op.steps[i].resource == r;
      }
    }
  }

  /** However often an uninstall was interrupted and resumed, when it commits the
      durable world is the one an uninterrupted uninstall leaves. What the
      snapshot says of other apps is theirs to change. */
  lemma UninstallConverges(c: Case, w: World, run: seq<Turn>)
    requires Starts(c, w) && Exec(c, w, run).Some? && Exec(c, w, run).value.op.phase == Committed
    ensures IsUninstalled(c, Exec(c, w, run).value)
    ensures Alone(c, w, run) ==> Without(Exec(c, w, run).value.snapshot, c.app) == Without(w.snapshot, c.app)
  {
    hide Starts, Exec, IsUninstalled, Alone, Without;
    StartHolds(c, w);
    RunKeepsInv(c, w, run);
    CommittedIsUninstalled(c, Exec(c, w, run).value);
    if Alone(c, w, run) { AloneKeepsRest(c, w, run); }
  }

  lemma CommittedIsUninstalled(c: Case, w: World)
    requires Inv(c, w) && w.op.phase == Committed
    ensures IsUninstalled(c, w)
  {
    hide StateAt, Operations.Valid, Plan, CleanStart;
    CommittedOp(c, w);
    PlanShape(c.app);
    assert Holds(c, w, AppDatabases, StateAt(w.op.steps, AppDatabases));
    assert Holds(c, w, RuntimeInstance, StateAt(w.op.steps, RuntimeInstance));
    assert Holds(c, w, OidcClient, StateAt(w.op.steps, OidcClient));
    assert Holds(c, w, PlatformSnapshot, StateAt(w.op.steps, PlatformSnapshot));
  }

  /** The stored client is newer than the uninstall that should revoke it: the
      clock went backwards between the two. */
  predicate ClientFromTheFuture(c: Case) {
    c.app.oidc.Some? && Live(c.start.client) && c.start.op.startedAt < c.start.client.value.createdAt
  }

  lemma ClientStays(c: Case, w: World, m: Turn)
    requires Inv(c, w) && ClientFromTheFuture(c) && w.client == c.start.client && Do(c, w, m).Some?
    ensures Do(c, w, m).value.client == c.start.client
  {
    hide StateAt, Follows, Operations.Valid, Plan, Apply, Holds, CleanStart;
  }

  /** Revocation is stamped with the start of the operation and no client may be
      revoked before it was created, so such an uninstall never commits. */
  lemma {:induction false} FutureClientBlocksUninstall(c: Case, w: World, run: seq<Turn>)
    requires Inv(c, w) && ClientFromTheFuture(c) && w.client == c.start.client && Exec(c, w, run).Some?
    ensures Exec(c, w, run).value.op.phase == Phase.Applying
    decreases |run|
  {
    hide Inv, Do;
    if run != [] {
      ClientStays(c, w, run[0]);
      DoKeepsInv(c, w, run[0]);
      FutureClientBlocksUninstall(c, Do(c, w, run[0]).value, run[1..]);
    } else {
      LiveMeansUncommitted(c, w);
    }
  }

  lemma LiveMeansUncommitted(c: Case, w: World)
    requires Inv(c, w) && c.app.oidc.Some? && Live(w.client)
    ensures w.op.phase == Phase.Applying
  {
    hide Operations.Valid, Plan, CleanStart, Follows, StateAt;
    if w.op.phase == Committed {
      CommittedIsUninstalled(c, w);
    }
  }
}
