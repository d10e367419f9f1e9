/** App install, uninstall and compensation as a machine over the durable world:
    one journal row and the five resources of one installation. A move is one
    durable write. Stopping after any prefix of moves is a crash, and resuming
    is taking further moves (app-operations/src/runner.rs,
    oidc-provider/src/registrar.rs). */
module Saga {
  import opened Wrappers
  import opened Operations
  import opened Scopes
  import D = Databases

  datatype Declaration = Declaration(confidential: bool, callback: string, scopes: seq<Scope>)

  /** The installation target as the journal stores it. Contributions are whatever
      it registers under an identifier, commands, searches and subscriptions too;
      an identifier with its kind is unique across installed apps. */
  datatype App = App(
    installation: nat,
    appId: string,
    displayName: string,
    contributions: set<string>,
    databases: seq<string>,
    oidc: Option<Declaration>,
    activates: bool)

  datatype Digest = Sha256(secret: nat)

  datatype Client = Client(
    id: nat,
    appId: string,
    displayName: string,
    confidential: bool,
    scopes: seq<Scope>,
    redirect: string,
    digest: Option<Digest>,
    createdAt: nat,
    revokedAt: Option<nat>)

  datatype Delivery = Delivery(operation: nat, client: nat, secret: nat)

  datatype Runtime = Absent | Prepared(app: App) | Running(app: App)

  datatype Grant = Grant(subject: nat, permission: nat)

  datatype Platform = Platform(apps: map<nat, App>, grants: set<Grant>)

  /** Everything that survives a restart. The client row is the one row the
      installation can ever have: its installation column is unique and rows are
      revoked, never deleted. */
  datatype World = World(
    op: Operation,
    dirs: D.Dirs,
    runtime: Runtime,
    client: Option<Client>,
    secret: Option<nat>,
    delivery: Option<Delivery>,
    snapshot: Platform)

  // ---------------------------------------------------------------- plans and staging

  function Plan(app: App, kind: Kind): seq<Resource> {
    var databases := if app.databases == [] then [] else [AppDatabases];
    var oidc := if app.oidc.None? then [] else [OidcClient];
    match kind
    case Install =>
      databases + [RuntimeInstance] + oidc + (if app.activates then [RuntimeActivation] else []) + [PlatformSnapshot]
    case Uninstall => [RuntimeActivation] + oidc + [RuntimeInstance] + databases + [PlatformSnapshot]
  }

  function Fresh(plan: seq<Resource>): (steps: seq<Step>)
    ensures |steps| == |plan|
    ensures forall i :: 0 <= i < |plan| ==> steps[i] == Step(plan[i], Pending)
  {
    if plan == [] then [] else [Step(plan[0], Pending)] + Fresh(plan[1..])
  }

  function AllApplied(plan: seq<Resource>): (steps: seq<Step>)
    ensures |steps| == |plan|
    ensures forall i :: 0 <= i < |plan| ==> steps[i] == Step(plan[i], Applied)
  {
    seq(|plan|, i requires 0 <= i < |plan| => Step(plan[i], Applied))
  }

  predicate Follows(steps: seq<Step>, plan: seq<Resource>) {
    |steps| == |plan| && forall i :: 0 <= i < |plan| ==> steps[i].resource == plan[i]
  }

  function Bindings(app: App): (bs: seq<D.Binding>)
    ensures |bs| == |app.databases|
    ensures forall i :: 0 <= i < |bs| ==> bs[i] == D.Binding(app.installation, app.databases[i])
  {
    seq(|app.databases|, i requires 0 <= i < |app.databases| => D.Binding(app.installation, app.databases[i]))
  }

  function Files(app: App): set<string> { D.FileNames(Bindings(app)) }

  function With(p: Platform, app: App): (q: Platform)
    ensures app.installation in q.apps && q.apps[app.installation] == app && q.grants == p.grants
    ensures q.apps - {app.installation} == p.apps - {app.installation}
  {
    p.(apps := p.apps[app.installation := app])
  }

  /** Nothing of the app is left, and everything of every other app is. */
  function Without(p: Platform, app: App): (q: Platform)
    ensures app.installation !in q.apps && forall i :: i in p.apps && i != app.installation ==>
      i in q.apps && q.apps[i] == p.apps[i]
    ensures forall i :: i in q.apps ==> i in p.apps
    ensures forall g :: g in q.grants <==> g in p.grants && g.subject != app.installation
  {
    Platform(p.apps - {app.installation}, set g | g in p.grants && g.subject != app.installation)
  }

  /** The app is on the platform. */
  predicate Lists(p: Platform, app: App) {
    app.installation in p.apps && p.apps[app.installation] == app
  }

  /** Neither the installation nor a grant of it is on the platform. */
  predicate Omits(p: Platform, app: App) {
    app.installation !in p.apps && forall g :: g in p.grants ==> g.subject != app.installation
  }

  /** The part of a platform that belongs to one installation. */
  function Own(p: Platform, app: App): Platform {
    Platform(map i | i in p.apps && i == app.installation :: p.apps[i],
      set g | g in p.grants && g.subject == app.installation)
  }

  /** The target of an operation and the world it started from. */
  datatype Case = Case(app: App, start: World)

  /** What the operation's snapshot has to say about its own app. The rest is
      whatever the state it was staged from held. */
  predicate Wanted(app: App, op: Operation, p: Platform) {
    if op.kind == Install && op.phase == Phase.Applying then Lists(p, app) else Omits(p, app)
  }

  // ---------------------------------------------------------------- resources

  function StateAt(steps: seq<Step>, r: Resource): StepState {
    match Position(steps, r)
    case None => Pending
    case Some(i) => steps[i].state
  }

  lemma StateAfterMove(steps: seq<Step>, i: nat, to: StepState, r: Resource)
    requires i < |steps| && Distinct(steps)
    ensures StateAt(steps[i := steps[i].(state := to)], r)
      == if steps[i].resource == r then to else StateAt(steps, r)
  {
    SamePosition(steps, steps[i := steps[i].(state := to)], r);
  }

  /** A client record refuses control characters in its display name; the
      manifest does not. */
  predicate Nameable(app: App) {
    forall i :: 0 <= i < |app.displayName| ==>
      var ch := app.displayName[i];
      ' ' <= ch && !('\U{7F}' <= ch <= '\U{9F}')
  }

  function BuildClient(app: App, id: nat, redirect: string, secret: Option<nat>, at: nat): Client
    requires app.oidc.Some?
  {
    Client(id, app.appId, app.displayName, app.oidc.value.confidential, app.oidc.value.scopes, redirect,
           if secret.Some? then Some(Sha256(secret.value)) else None, at, None)
  }

  predicate Live(client: Option<Client>) {
    client.Some? && client.value.revokedAt.None?
  }

  /** The stored client is the one the declaration and the stored secret yield. */
  predicate Registered(c: Case, w: World) {
    && c.app.oidc.Some? && w.client.Some?
    && (c.app.oidc.value.confidential <==> w.secret.Some?)
    && w.client.value == BuildClient(c.app, w.client.value.id, w.client.value.redirect, w.secret, w.op.startedAt)
  }

  predicate Delivered(c: Case, w: World) {
    Registered(c, w) && w.secret.Some? && w.delivery == Some(Delivery(w.op.id, w.client.value.id, w.secret.value))
  }

  /** The databases as an uninterrupted install leaves them. */
  function FreshDatabases(app: App): D.Dirs {
    D.Dirs(None, Some(D.Created(Files(app))), None)
  }

  const NoDirs := D.Dirs(None, None, None)

  /** What a provider call that returned success has established. */
  predicate Reached(c: Case, w: World, r: Resource) {
    match r
    case AppDatabases =>
      w.dirs.active.Some? && D.ProvisionRefusal(w.dirs, Bindings(c.app)) == None
    case RuntimeInstance => w.runtime == Prepared(c.app) || w.runtime == Running(c.app)
    case OidcClient =>
      Registered(c, w) && (c.app.oidc.value.confidential ==> Delivered(c, w))
    case RuntimeActivation => w.runtime == Running(c.app)
    case PlatformSnapshot => Wanted(c.app, w.op, w.snapshot)
  }

  /** What a removing call that returned success has established. */
  predicate Gone(c: Case, w: World, r: Resource) {
    match r
    case AppDatabases => w.dirs.active.None? && w.dirs.staging.None?
    case RuntimeInstance => w.runtime.Absent?
    case OidcClient => w.delivery.None? && !Live(w.client) && w.secret.None?
    case RuntimeActivation => !w.runtime.Running?
    case PlatformSnapshot => Wanted(c.app, w.op, w.snapshot)
  }

  datatype Effect =
    | Provision(to: D.Dirs) | Retain(to: D.Dirs)
    | Prepare | Activate | Deactivate | Remove
    | SaveSecret(value: nat) | SaveClient(id: nat, redirect: string) | Deliver
    | Withdraw | Revoke | DropSecret
    | SaveSnapshot(staged: Platform)

  function ResourceOf(e: Effect): Resource {
    match e
    case Provision(_) => AppDatabases
    case Retain(_) => AppDatabases
    case Prepare => RuntimeInstance
    case Remove => RuntimeInstance
    case Activate => RuntimeActivation
    case Deactivate => RuntimeActivation
    case SaveSnapshot(_) => PlatformSnapshot
    case _ => OidcClient
  }

  predicate Removing(op: Operation) {
    op.kind == Uninstall || op.phase == Compensating
  }

  /** A write belongs to the step in flight, in the direction of travel. */
  predicate Enabled(op: Operation, e: Effect) {
    && InFlight(StateAt(op.steps, ResourceOf(e)))
    && (e.Provision? || e.Prepare? || e.Activate? || e.SaveSecret? || e.SaveClient? || e.Deliver? ==> !Removing(op))
    && (e.Retain? || e.Remove? || e.Deactivate? || e.Withdraw? || e.Revoke? || e.DropSecret? ==> Removing(op))
  }

  function RevokedAt(client: Option<Client>, at: nat): Option<Client> {
    if Live(client) then Some(client.value.(revokedAt := Some(at))) else client
  }

  /** One write, or nothing when the provider refuses it. */
  function Perform(c: Case, w: World, e: Effect): Option<World> {
    match e
    case Provision(to) => if D.ProvisionMay(w.dirs, to, Files(c.app)) then Some(w.(dirs := to)) else None
    case Retain(to) => if D.RetainMay(w.dirs, to) then Some(w.(dirs := to)) else None
    case Prepare =>
      if w.runtime.Absent? then Some(w.(runtime := Prepared(c.app)))
      else if w.runtime.app == c.app then Some(w) else None
    case Activate =>
      if !w.runtime.Absent? && w.runtime.app == c.app then Some(w.(runtime := Running(c.app))) else None
    case Deactivate =>
      Some(if w.runtime.Running? then w.(runtime := Prepared(w.runtime.app)) else w)
    case Remove => if w.runtime.Running? then None else Some(w.(runtime := Absent))
    case SaveSecret(v) =>
      if c.app.oidc.Some? && c.app.oidc.value.confidential && !Live(w.client) && w.secret.None?
      then Some(w.(secret := Some(v))) else None
    case SaveClient(id, redirect) =>
      if c.app.oidc.Some? && Nameable(c.app) && w.client.None? && (c.app.oidc.value.confidential <==> w.secret.Some?)
      then Some(w.(client := Some(BuildClient(c.app, id, redirect, w.secret, w.op.startedAt)))) else None
    case Deliver =>
      if Registered(c, w) && w.secret.Some? then
        var d := Delivery(w.op.id, w.client.value.id, w.secret.value);
        if w.delivery.None? || w.delivery == Some(d) then Some(w.(delivery := Some(d))) else None
      else None
    case Withdraw => Some(w.(delivery := None))
    case Revoke =>
      if w.delivery.Some? || (Live(w.client) && w.op.startedAt < w.client.value.createdAt) then None
      else Some(w.(client := RevokedAt(w.client, w.op.startedAt)))
    case DropSecret => if w.delivery.Some? || Live(w.client) then None else Some(w.(secret := None))
    case SaveSnapshot(staged) => if Wanted(c.app, w.op, staged) then Some(w.(snapshot := staged)) else None
  }

  /** A turn of this operation, or a snapshot that another operation stored. */
  datatype Turn = Journal(t: Transition, at: nat) | Write(e: Effect) | Foreign(p: Platform)

  /** A step is recorded as complete only after its call returned success, and
      only an install can be compensated. */
  predicate MayRecord(c: Case, w: World, t: Transition) {
    match t
    case Complete(r) => if w.op.kind == Install then Reached(c, w, r) else Gone(c, w, r)
    case CompleteResourceUndo(r) => Gone(c, w, r)
    case BeginUndo => w.op.kind == Install
    case _ => true
  }

  function Do(c: Case, w: World, m: Turn): Option<World> {
    match m
    case Journal(t, at) =>
      if !MayRecord(c, w, t) then None
      else (match Apply(w.op, t, at)
        case Ok(op) => Some(w.(op := op))
        case Err(_) => None)
    case Write(e) => if Enabled(w.op, e) then Perform(c, w, e) else None
    case Foreign(p) => if Own(p, c.app) == Own(w.snapshot, c.app) then Some(w.(snapshot := p)) else None
  }

  /** A run: every turn is possible where it is taken. Where the run stops is
      where the process may have crashed. */
  function Exec(c: Case, w: World, run: seq<Turn>): Option<World>
    decreases |run|
  {
    if run == [] then Some(w)
    else match Do(c, w, run[0])
      case None => None
      case Some(next) => Exec(c, next, run[1..])
  }

  ghost predicate Reaches(c: Case, from: World, to: World) {
    exists run: seq<Turn> :: Exec(c, from, run) == Some(to)
  }

  lemma BothOmit(p: Platform, q: Platform, app: App)
    requires Omits(p, app) && Omits(q, app)
    ensures Own(p, app) == Own(q, app)
  {
    assert Own(p, app).apps == map[] == Own(q, app).apps;
    assert Own(p, app).grants == {} == Own(q, app).grants;
  }

  /** Another operation may change everything but this installation's entry and
      its grants. */
  lemma OwnIs(p: Platform, q: Platform, app: App)
    ensures Own(p, app) == Own(q, app) <==>
      && (app.installation in p.apps <==> app.installation in q.apps)
      && (app.installation in p.apps && app.installation in q.apps ==>
        p.apps[app.installation] == q.apps[app.installation])
      && forall g: Grant :: g.subject == app.installation ==> (g in p.grants <==> g in q.grants)
  {
    var i := app.installation;
    assert i in p.apps <==> i in Own(p, app).apps;
    assert i in q.apps <==> i in Own(q, app).apps;
    assert i in p.apps ==> p.apps[i] == Own(p, app).apps[i];
    assert i in q.apps ==> q.apps[i] == Own(q, app).apps[i];
    assert forall g: Grant :: g in Own(p, app).grants <==> g in p.grants && g.subject == i;
    assert forall g: Grant :: g in Own(q, app).grants <==> g in q.grants && g.subject == i;
    if forall g: Grant :: g.subject == i ==> (g in p.grants <==> g in q.grants) {
      assert Own(p, app).grants == Own(q, app).grants;
    }
  }

  lemma OwnDecides(p: Platform, q: Platform, app: App)
    requires Own(p, app) == Own(q, app)
    ensures (Lists(p, app) <==> Lists(q, app)) && (Omits(p, app) <==> Omits(q, app))
    ensures app.installation in p.apps <==> app.installation in q.apps
  {
    assert Own(p, app).apps == Own(q, app).apps && Own(p, app).grants == Own(q, app).grants;
    assert app.installation in p.apps <==> app.installation in Own(p, app).apps;
    assert app.installation in q.apps <==> app.installation in Own(q, app).apps;
    assert forall g :: g in Own(p, app).grants <==> g in p.grants && g.subject == app.installation;
    assert forall g :: g in Own(q, app).grants <==> g in q.grants && g.subject == app.installation;
  }

  // ---------------------------------------------------------------- the rest of the platform

  /** No other operation stored a snapshot during the run, and this one staged
      its own from the stored one. */
  predicate Alone(c: Case, w: World, run: seq<Turn>)
    decreases |run|
  {
    run == [] ||
    (&& (run[0].Foreign? ==> Without(run[0].p, c.app) == Without(w.snapshot, c.app))
     && (run[0].Write? && run[0].e.SaveSnapshot? ==> Without(run[0].e.staged, c.app) == Without(w.snapshot, c.app))
     && (Do(c, w, run[0]).Some? ==> Alone(c, Do(c, w, run[0]).value, run[1..])))
  }

  lemma {:induction false} AloneKeepsRest(c: Case, w: World, run: seq<Turn>)
    requires Exec(c, w, run).Some? && Alone(c, w, run)
    ensures Without(Exec(c, w, run).value.snapshot, c.app) == Without(w.snapshot, c.app)
    decreases |run|
  {
    hide Apply, MayRecord, Enabled, Wanted, Own, Without;
    if run != [] {
      AloneKeepsRest(c, Do(c, w, run[0]).value, run[1..]);
    }
  }
}
