/** Which apps may stand beside each other on one platform, what an installed app
    has, and installing one app after another (core/src/apps/lifecycle.rs,
    core/src/apps/installed_registry.rs, core/src/contributions/registry.rs,
    app-operations/src/runner.rs). */
module Installs {
  import opened Wrappers
  import opened Operations
  import opened Saga
  import D = Databases
  import G = Registrar
  import I = SagaInstall
  import R = Runner

  // ---------------------------------------------------------------- identifiers

  /** The two share an app id or the id of a contribution. */
  ghost predicate Clash(a: App, b: App) {
    a.appId == b.appId || exists x :: x in a.contributions && x in b.contributions
  }

  /** No two installations clash. */
  ghost predicate Unambiguous(p: Platform) {
    forall i, j :: i in p.apps && j in p.apps && i != j ==> !Clash(p.apps[i], p.apps[j])
  }

  lemma RivalIsClash(p: Platform, app: App)
    ensures R.Rival(p, app) <==> exists i :: i in p.apps && i != app.installation && Clash(p.apps[i], app)
  {
    forall i | i in p.apps && i != app.installation
      ensures Clash(p.apps[i], app) <==>
        p.apps[i].appId == app.appId || p.apps[i].contributions * app.contributions != {}
    {
      var common := p.apps[i].contributions * app.contributions;
      if common != {} {
        var x :| x in common;
        assert x in p.apps[i].contributions && x in app.contributions;
      }
      if x :| x in p.apps[i].contributions && x in app.contributions { assert x in common; }
    }
  }

  /** An app is let onto a platform without clashes if and only if it leaves one
      without clashes. */
  lemma AdmitsExactly(p: Platform, app: App)
    requires Unambiguous(p) && app.installation !in p.apps
    ensures R.Admits(p, app) <==> Unambiguous(With(p, app))
  {
    hide Clash;
    RivalIsClash(p, app);
    var q := With(p, app);
    if R.Rival(p, app) {
      var i :| i in p.apps && i != app.installation && Clash(p.apps[i], app);
      assert i in q.apps && app.installation in q.apps && q.apps[i] == p.apps[i];
    } else {
      forall i, j | i in q.apps && j in q.apps && i != j ensures !Clash(q.apps[i], q.apps[j]) {
        ClashBoth(q.apps[i], q.apps[j]);
      }
    }
  }

  lemma ClashBoth(a: App, b: App)
    ensures Clash(a, b) <==> Clash(b, a)
  {
  }

  /** An installation that is there is taken up only as the very app it is. */
  lemma AdmitsOnlyItself(p: Platform, app: App)
    requires app.installation in p.apps
    ensures (R.Admits(p, app) <==> p.apps[app.installation] == app) && (R.Releases(p, app) <==> R.Admits(p, app))
  {
  }

  /** An app that is not there is let go exactly when no other installation is of
      it. */
  lemma ReleasesExactly(p: Platform, app: App)
    requires app.installation !in p.apps
    ensures R.Releases(p, app) <==> forall i :: i in p.apps ==> p.apps[i].appId != app.appId
  {
  }

  // ---------------------------------------------------------------- what an installed app has

  /** The runtime as the app declares it, running or prepared. */
  predicate Runs(app: App, runtime: Runtime) {
    runtime == if app.activates then Running(app) else Prepared(app)
  }

  /** One file for every declared database, under its own name, and no other. */
  predicate OwnFiles(app: App, dirs: D.Dirs) {
    && dirs.staging.None? && dirs.retained.None?
    && (app.databases == [] ==> dirs.active.None?)
    && (app.databases != [] ==>
      && dirs.active.Some? && |dirs.active.value| == |app.databases|
      && forall i :: 0 <= i < |app.databases| ==> app.databases[i] + ".sqlite3" in dirs.active.value)
  }

  /** What a finished install has left, said of the app's own fields. */
  lemma InstalledHas(c: Case, w: World)
    requires R.Admitted(c) && I.IsInstalled(c, w)
    ensures w.snapshot.apps[c.app.installation] == c.app && Runs(c.app, w.runtime) && OwnFiles(c.app, w.dirs)
    ensures c.app.oidc.Some? ==> w.client.Some? && G.Holds(c.app, Some(w.client.value.redirect), w.client, w.secret)
    ensures c.app.oidc.None? ==> w.client.None? && w.secret.None? && w.delivery.None?
    ensures w.secret.Some? ==> w.delivery == Some(Delivery(w.op.id, w.client.value.id, w.secret.value))
  {
    hide D.Created, D.FileNames;
    D.OneFileEach(Bindings(c.app));
    D.CreatedHolds(D.FileNames(Bindings(c.app)));
    forall i | 0 <= i < |c.app.databases|
      ensures c.app.databases[i] + ".sqlite3" in D.FileNames(Bindings(c.app))
    {
      assert Bindings(c.app)[i].id == c.app.databases[i] && Bindings(c.app)[i] in Bindings(c.app);
    }
  }

  /** In every reachable world a registered client says what the app declares. */
  lemma RegisteredHas(c: Case, w: World)
    requires Registered(c, w)
    ensures G.Holds(c.app, Some(w.client.value.redirect), w.client, w.secret)
    ensures w.client.value.createdAt == w.op.startedAt
  {
  }

  // ---------------------------------------------------------------- one after another

  function WithAll(p: Platform, apps: seq<App>): Platform {
    if apps == [] then p else With(WithAll(p, apps[..|apps| - 1]), apps[|apps| - 1])
  }

  predicate Apart(apps: seq<App>) {
    forall j, k :: 0 <= j < k < |apps| ==> apps[j].installation != apps[k].installation
  }

  /** Nothing that stands is overwritten later. */
  lemma {:induction false} WithAllKeeps(p: Platform, apps: seq<App>, k: nat, i: nat)
    requires k <= |apps| && Apart(apps) && i in WithAll(p, apps[..k]).apps
    requires forall j :: 0 <= j < |apps| ==> apps[j].installation !in p.apps
    ensures i in WithAll(p, apps).apps && WithAll(p, apps).apps[i] == WithAll(p, apps[..k]).apps[i]
    decreases |apps|
  {
    if k < |apps| {
      var n := |apps| - 1;
      assert apps[..n][..k] == apps[..k];
      WithAllKeeps(p, apps[..n], k, i);
      WithAllNew(p, apps[..n], i);
      assert i != apps[n].installation;
    } else {
      assert apps[..k] == apps;
    }
  }

  lemma {:induction false} WithAllNew(p: Platform, apps: seq<App>, i: nat)
    requires i in WithAll(p, apps).apps
    ensures i in p.apps || exists j :: 0 <= j < |apps| && apps[j].installation == i
  {
    if apps != [] {
      var n := |apps| - 1;
      if i == apps[n].installation {
        assert apps[n].installation == i;
      } else {
        WithAllNew(p, apps[..n], i);
        if j :| 0 <= j < n && apps[..n][j].installation == i { assert apps[j].installation == i; }
      }
    }
  }

  /** A clash stays a clash whatever comes after. */
  lemma ClashStays(p: Platform, apps: seq<App>, k: nat)
    requires k <= |apps| && Apart(apps) && Unambiguous(WithAll(p, apps))
    requires forall j :: 0 <= j < |apps| ==> apps[j].installation !in p.apps
    ensures Unambiguous(WithAll(p, apps[..k]))
  {
    hide WithAll, Clash;
    var few, all := WithAll(p, apps[..k]), WithAll(p, apps);
    forall i, j | i in few.apps && j in few.apps && i != j ensures !Clash(few.apps[i], few.apps[j]) {
      WithAllKeeps(p, apps, k, i);
      WithAllKeeps(p, apps, k, j);
    }
  }

  /** The platform has nothing of the app yet, and what it declares can be
      registered. */
  ghost predicate Ready(r: R.Runner, app: App, live: Platform, snapshot: Platform)
    reads r, r.databases
  {
    && r.runtime == Absent && r.client.None? && r.secret.None? && r.delivery.None?
    && r.databases.View(app.installation) == NoDirs && Omits(live, app) && Omits(snapshot, app)
    && (forall i, j :: 0 <= i < j < |app.databases| ==> app.databases[i] != app.databases[j])
    && (app.oidc.Some? ==> r.address.Some? && forall i :: 0 <= i < |app.displayName| ==> !G.Control(app.displayName[i]))
  }

  lemma RegistrableIs(app: App, address: Option<string>)
    requires address.Some? && forall i :: 0 <= i < |app.displayName| ==> !G.Control(app.displayName[i])
    ensures !R.Unregistrable(app, None, address)
  {
    G.NameableIs(app);
  }

  lemma OthersOmitted(p: Platform, app: App, other: App)
    requires Omits(p, other) && app.installation != other.installation
    ensures Omits(With(p, app), other)
  {
  }

  /** One install over the shared state. */
  method InstallNext(rs: seq<R.Runner>, k: nat, databases: D.Provider, apps: seq<App>,
    live: Platform, snapshot: Platform)
    returns (out: R.Outcome, live': Platform, snapshot': Platform)
    requires k < |rs| == |apps| && Apart(apps) && Together(rs, databases) && databases.steady
    requires forall j :: k <= j < |rs| ==> Ready(rs[j], apps[j], live, snapshot)
    modifies rs[k], databases
    ensures Together(rs, databases) && out != R.Interrupted
    ensures out == R.Refused <==> R.Rival(live, apps[k])
    ensures if out == R.Done then live' == snapshot' == With(live, apps[k]) else live' == live && snapshot' == snapshot
    ensures forall j :: k < j < |rs| ==> Ready(rs[j], apps[j], live', snapshot')
  {
    hide R.OnPath, R.Finished, R.Rival, With, Omits, R.Unregistrable;
    var r, app := rs[k], apps[k];
    if app.oidc.Some? { RegistrableIs(app, r.address); }
    r.live, r.snapshot := live, snapshot;
    ghost var c;
    out, c := r.InstallApp(app);
    live', snapshot' := r.live, r.snapshot;
    forall j | k < j < |rs| ensures Ready(rs[j], apps[j], live', snapshot') {
      var i, other := app.installation, apps[j].installation;
      D.FindOther(databases.staging, old(databases.staging), i, other);
      D.FindOther(databases.active, old(databases.active), i, other);
      D.FindOther(databases.retained, old(databases.retained), i, other);
      OthersOmitted(live, app, apps[j]);
    }
  }

  ghost predicate Together(rs: seq<R.Runner>, databases: D.Provider) {
    && (forall k :: 0 <= k < |rs| ==> rs[k].databases == databases)
    && forall j, k :: 0 <= j < k < |rs| ==> rs[j] != rs[k]
  }

  /** Apps are installed one after another. On a steady machine all of them get on
      if and only if no two, of those that were there and those that come, share an
      app id or a contribution id. */
  method InstallAll(rs: seq<R.Runner>, databases: D.Provider, apps: seq<App>, live: Platform, snapshot: Platform)
    returns (done: nat, live': Platform, snapshot': Platform)
    requires |rs| == |apps| && Apart(apps) && Together(rs, databases) && databases.steady && Unambiguous(live)
    requires forall k :: 0 <= k < |rs| ==> Ready(rs[k], apps[k], live, snapshot)
    modifies rs, databases
    ensures done <= |apps| && (done == |apps| <==> Unambiguous(WithAll(live, apps)))
    ensures live' == WithAll(live, apps[..done]) && Unambiguous(live') && (done > 0 ==> live' == snapshot')
    ensures done == 0 ==> snapshot' == snapshot
  {
    hide R.Rival, With, Omits, Ready, Unambiguous;
    done, live', snapshot' := 0, live, snapshot;
    assert apps[..0] == [];
    NoneInThere(rs, apps, live, snapshot);
    while done < |apps|
      invariant done <= |apps| && Together(rs, databases)
      invariant live' == WithAll(live, apps[..done]) && Unambiguous(live')
      invariant (done > 0 ==> live' == snapshot') && (done == 0 ==> snapshot' == snapshot)
      invariant forall k :: done <= k < |rs| ==> Ready(rs[k], apps[k], live', snapshot')
    {
      assert apps[..done + 1][..done] == apps[..done];
      assert apps[done].installation !in live'.apps by { NotThere(rs[done], apps[done], live', snapshot'); }
      AdmitsExactly(live', apps[done]);
      NotListed(live', apps[done]);
      ghost var before := live';
      var out;
      out, live', snapshot' := InstallNext(rs, done, databases, apps, live', snapshot');
      if out != R.Done {
        if Unambiguous(WithAll(live, apps)) { ClashStays(live, apps, done + 1); }
        return;
      }
      done := done + 1;
    }
    assert apps[..done] == apps;
  }

  lemma NotListed(p: Platform, app: App)
    requires app.installation !in p.apps
    ensures R.Admits(p, app) <==> !R.Rival(p, app)
  {
  }

  lemma NotThere(r: R.Runner, app: App, live: Platform, snapshot: Platform)
    requires Ready(r, app, live, snapshot)
    ensures app.installation !in live.apps
  {
  }

  lemma NoneInThere(rs: seq<R.Runner>, apps: seq<App>, live: Platform, snapshot: Platform)
    requires |rs| == |apps| && forall k :: 0 <= k < |rs| ==> Ready(rs[k], apps[k], live, snapshot)
    ensures forall k :: 0 <= k < |apps| ==> apps[k].installation !in live.apps
  {
  }
}
