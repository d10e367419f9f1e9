/** One recovery pass over every unfinished operation, oldest first
    (app-operations/src/runner.rs). The operations share the state in memory, the
    stored snapshot and the databases; everything else belongs to one of them. */
module Pass {
  import opened Wrappers
  import opened Operations
  import opened Saga
  import D = Databases
  import R = Runner

  lemma OwnApart(p: Platform, q: Platform, app: App, other: App)
    requires Without(p, app) == Without(q, app) && app.installation != other.installation
    ensures Own(p, other) == Own(q, other)
  {
    var i := other.installation;
    assert i in p.apps <==> i in Without(p, app).apps;
    assert i in q.apps <==> i in Without(q, app).apps;
    assert i in p.apps ==> p.apps[i] == Without(p, app).apps[i];
    assert i in q.apps ==> q.apps[i] == Without(q, app).apps[i];
    assert Own(p, other).apps == Own(q, other).apps;
    forall g ensures g in Own(p, other).grants <==> g in Own(q, other).grants {
      assert g in Without(p, app).grants <==> g in p.grants && g.subject != app.installation;
      assert g in Without(q, app).grants <==> g in q.grants && g.subject != app.installation;
    }
  }

  /** A block does not depend on the stored snapshot. */
  lemma BlockedAnyway(c: Case, w: World, p: Platform, live: Platform, address: Option<string>)
    ensures R.Blocked(c, w.(snapshot := p), live, address) <==> R.Blocked(c, w, live, address)
  {
  }

  /** What is shared agrees with what the operation last saw of its own app. */
  ghost predicate Agrees(r: R.Runner, live: Platform, snapshot: Platform)
    reads r
  {
    Own(live, r.target) == Own(snapshot, r.target) == Own(r.snapshot, r.target)
  }

  /** Hands the operation what is shared and finishes it. */
  method TakeTurn(r: R.Runner, live: Platform, snapshot: Platform, ghost c: Case) returns (out: R.Outcome)
    requires r.On(c) && Agrees(r, live, snapshot)
    modifies r`row, r`runtime, r`client, r`secret, r`delivery, r`snapshot, r`live, r.databases
    ensures r.On(c) && r.databases.OthersKept(r.target.installation)
    ensures out == R.Done ==> R.Finished(c, r.Durable()) && Without(r.live, r.target) == Without(live, r.target)
    ensures out == R.Done ==> Agrees(r, r.live, r.snapshot)
    ensures r.snapshot == snapshot || Without(r.snapshot, r.target) == Without(live, r.target)
    ensures out == R.Done && live == snapshot ==> r.live == r.snapshot
    ensures out != R.Interrupted ==> (out == R.Refused <==> R.Blocked(c, old(r.Durable()), live, r.address))
    ensures r.databases.steady ==> out != R.Interrupted
  {
    hide R.OnPath, R.Blocked, R.Finished, Own, Without;
    ghost var before := r.Durable();
    r.live, r.snapshot := live, snapshot;
    R.Took(c, before, Foreign(snapshot), r.Durable());
    BlockedAnyway(c, before, snapshot, live, r.address);
    out := r.Recover(c);
  }

  /** The operations listed: their own views, one set of databases, different
      installations. */
  ghost predicate Apart(rs: seq<R.Runner>, databases: D.Provider)
    reads rs
  {
    && (forall k :: 0 <= k < |rs| ==> rs[k].databases == databases)
    && forall j, k :: 0 <= j < k < |rs| ==>
      rs[j] != rs[k] && rs[j].target.installation != rs[k].target.installation
  }

  /** Another operation's turn leaves what is shared of this one. */
  lemma OthersTurn(r: R.Runner, other: App, live: Platform, snapshot: Platform, live': Platform, snapshot': Platform)
    requires r.target.installation != other.installation
    requires Agrees(r, live, snapshot) && Without(live', other) == Without(live, other)
    requires snapshot' == snapshot || Without(snapshot', other) == Without(live, other)
    ensures Agrees(r, live', snapshot')
  {
    hide Own, Without;
    OwnApart(live', live, other, r.target);
    if snapshot' != snapshot { OwnApart(snapshot', live, other, r.target); }
  }

  /** One operation's turn among the others. */
  method NextTurn(rs: seq<R.Runner>, k: nat, databases: D.Provider, live: Platform, snapshot: Platform, ghost c: Case)
    returns (out: R.Outcome, live': Platform, snapshot': Platform)
    requires k < |rs| && Apart(rs, databases) && rs[k].On(c)
    requires forall j :: 0 <= j < |rs| ==> Agrees(rs[j], live, snapshot)
    modifies rs[k], databases
    ensures rs[k].target == old(rs[k].target) && rs[k].address == old(rs[k].address)
    ensures Apart(rs, databases) && rs[k].On(c) && Without(live', rs[k].target) == Without(live, rs[k].target)
    ensures forall j :: 0 <= j < |rs| && j != k ==>
      rs[j].Durable() == old(rs[j].Durable()) && Agrees(rs[j], live', snapshot')
    ensures out == R.Done ==> R.Finished(c, rs[k].Durable()) && Agrees(rs[k], live', snapshot')
    ensures out == R.Done && live == snapshot ==> live' == snapshot'
    ensures out != R.Done ==> live' == live
    ensures out != R.Interrupted ==> (out == R.Refused <==> R.Blocked(c, old(rs[k].Durable()), live, rs[k].address))
    ensures databases.steady ==> out != R.Interrupted
  {
    hide R.OnPath, R.Blocked, R.Finished, Own, Without, Agrees;
    var r := rs[k];
    out := TakeTurn(r, live, snapshot, c);
    live', snapshot' := if out == R.Done then r.live else live, r.snapshot;
    forall j | 0 <= j < |rs| && j != k
      ensures Agrees(rs[j], live', snapshot') && rs[j].Durable() == old(rs[j].Durable())
    {
      var i, other := r.target.installation, rs[j].target.installation;
      D.FindOther(databases.staging, old(databases.staging), i, other);
      D.FindOther(databases.active, old(databases.active), i, other);
      D.FindOther(databases.retained, old(databases.retained), i, other);
      OthersTurn(rs[j], r.target, live, snapshot, live', snapshot');
    }
  }

  /** A turn that was not blocked over what it found and left other apps alone. */
  predicate Took(c: Case, w: World, live: Platform, live': Platform, address: Option<string>) {
    !R.Blocked(c, w, live, address) && Without(live', c.app) == Without(live, c.app)
  }

  ghost function Worlds(rs: seq<R.Runner>): (ws: seq<World>)
    reads rs, set r | r in rs :: r.databases
    ensures |ws| == |rs| && forall k :: 0 <= k < |rs| ==> ws[k] == rs[k].Durable()
  {
    if rs == [] then [] else Worlds(rs[..|rs| - 1]) + [rs[|rs| - 1].Durable()]
  }

  /** The pass. It stops at the first operation that is blocked over what the ones
      before it left in memory: those are finished, and those after it are as they
      were. `seen` is the state in memory at each turn. */
  method RecoverIncomplete(rs: seq<R.Runner>, databases: D.Provider, live: Platform, snapshot: Platform,
    ghost cases: seq<Case>)
    returns (out: R.Outcome, done: nat, live': Platform, snapshot': Platform, ghost seen: seq<Platform>)
    requires Apart(rs, databases) && |cases| == |rs|
    requires forall k :: 0 <= k < |rs| ==> rs[k].On(cases[k]) && Agrees(rs[k], live, snapshot)
    modifies rs, databases
    ensures done <= |rs| && |seen| == done + 1 && seen[0] == live && seen[done] == live'
    ensures out == R.Done <==> done == |rs|
    ensures forall k :: 0 <= k < done ==>
      && R.Finished(cases[k], rs[k].Durable()) && Agrees(rs[k], live', snapshot')
      && Took(cases[k], old(rs[k].Durable()), seen[k], seen[k + 1], rs[k].address)
    ensures forall k :: done < k < |rs| ==> rs[k].Durable() == old(rs[k].Durable())
    ensures out == R.Refused ==> R.Blocked(cases[done], old(rs[done].Durable()), live', rs[done].address)
    ensures out != R.Done ==> rs[done].On(cases[done])
    ensures out == R.Done && live == snapshot ==> live' == snapshot'
    ensures databases.steady ==> out != R.Interrupted
  {
    hide R.OnPath, R.Blocked, R.Finished, Own, Without, Agrees, Apart, Worlds;
    out, done, live', snapshot', seen := R.Done, 0, live, snapshot, [live];
    ghost var starts := Worlds(rs);
    while done < |rs|
      invariant out == R.Done && done <= |rs| && |seen| == done + 1 && seen[0] == live && seen[done] == live'
      invariant Apart(rs, databases) && (live == snapshot ==> live' == snapshot')
      invariant forall k :: 0 <= k < |rs| ==> rs[k].target == cases[k].app && rs[k].address == old(rs[k].address)
      invariant forall k :: 0 <= k < |rs| ==> Agrees(rs[k], live', snapshot')
      invariant forall k :: done <= k < |rs| ==> rs[k].Durable() == starts[k]
      invariant forall k :: 0 <= k < done ==> R.Finished(cases[k], rs[k].Durable())
      invariant forall k :: 0 <= k < done ==> Took(cases[k], starts[k], seen[k], seen[k + 1], old(rs[k].address))
    {
      out, live', snapshot' := NextTurn(rs, done, databases, live', snapshot', cases[done]);
      if out != R.Done { return; }
      seen := seen + [live'];
      done := done + 1;
    }
  }
}
