/** Per-installation app databases as three directories on one filesystem, with
    an interruption possible between any two filesystem calls
    (persistence-sqlite/src/app_database_provider.rs). */
module Databases {
  import opened Wrappers

  datatype Entry = File(content: nat) | NotAFile

  type Dir = map<string, Entry>

  datatype Binding = Binding(owner: nat, id: string)

  /** The directories of one installation. */
  datatype Dirs = Dirs(staging: Option<Dir>, active: Option<Dir>, retained: Option<Dir>)

  datatype State = Absent | Staged | Active | Retained

  datatype Error =
    | MixedInstallationBindings | DuplicateDatabaseBinding | RetainedDataExists
    | StagingDataExists | ConflictingInstallationState | ActiveDataMismatch | DatabaseNotActive

  /** Interrupted covers a crash and an input/output error alike: the call
      stopped somewhere on its way. */
  datatype Outcome = Done | Interrupted | Refused(error: Error)

  // ---------------------------------------------------------------- specification

  function FileName(id: string): string { id + ".sqlite3" }

  function FileNames(bindings: seq<Binding>): set<string> {
    set b | b in bindings :: FileName(b.id)
  }

  /** Freshly created databases hold nothing yet. */
  function Created(files: set<string>): Dir {
    map f | f in files :: File(0)
  }

  /** At most one of the three directories exists. */
  predicate Exclusive(d: Dirs) {
    && !(d.active.Some? && d.retained.Some?)
    && !(d.active.Some? && d.staging.Some?)
    && !(d.retained.Some? && d.staging.Some?)
  }

  function StateOf(d: Dirs): State {
    if d.active.Some? then Active
    else if d.retained.Some? then Retained
    else if d.staging.Some? then Staged
    else Absent
  }

  predicate Sidecar(name: string, expected: set<string>) {
    exists base :: base in expected && (name == base + "-wal" || name == base + "-shm" || name == base + "-journal")
  }

  /** Exactly the declared databases, plus SQLite's own companions of them. */
  predicate Matches(dir: Dir, expected: set<string>) {
    && expected <= dir.Keys
    && forall name :: name in dir ==> dir[name].File? && (name in expected || Sidecar(name, expected))
  }

  /** The data an installation holds, wherever it is kept. */
  function Held(d: Dirs): Option<Dir> {
    if d.active.Some? then d.active else d.retained
  }

  /** Where a call that ran to any point may leave the directories. */
  predicate ProvisionMay(d: Dirs, d': Dirs, files: set<string>) {
    if d.active.Some? || d.retained.Some? then d' == d
    else (d'.active.None? && d'.retained.None?) || d' == Dirs(None, Some(Created(files)), None)
  }

  predicate RetainMay(d: Dirs, d': Dirs) {
    d' == d || (Exclusive(d) && d.active.Some? && d' == Dirs(None, None, d.active))
  }

  predicate RestoreMay(d: Dirs, d': Dirs) {
    d' == d || (Exclusive(d) && d.retained.Some? && d' == Dirs(None, d.retained, None))
  }

  predicate Mixed(bindings: seq<Binding>) {
    exists b :: b in bindings && b.owner != bindings[0].owner
  }

  predicate Duplicates(bindings: seq<Binding>) {
    exists i, j :: 0 <= i < j < |bindings| && bindings[i].id == bindings[j].id
  }

  /** What the provider refuses outright, before it touches anything. */
  function ProvisionRefusal(d: Dirs, bindings: seq<Binding>): Option<Error> {
    if !Exclusive(d) then Some(ConflictingInstallationState)
    else if d.retained.Some? then Some(RetainedDataExists)
    else if d.active.Some? && !Matches(d.active.value, FileNames(bindings)) then Some(ActiveDataMismatch)
    else None
  }

  /** The database of this id can be opened. */
  predicate Opens(d: Dirs, id: string) {
    d.active.Some? && id + ".sqlite3" in d.active.value && d.active.value[id + ".sqlite3"].File?
  }

  /** Exactly the declared databases can be opened. */
  ghost predicate Serves(d: Dirs, bindings: seq<Binding>) {
    forall id :: Opens(d, id) <==> exists b :: b in bindings && b.id == id
  }

  /** Companions of a database are never taken for one. */
  lemma MatchingServes(d: Dirs, bindings: seq<Binding>)
    requires d.active.Some? && Matches(d.active.value, FileNames(bindings))
    ensures Serves(d, bindings)
  {
    hide FileNames;
    OneFileEach(bindings);
    var files := FileNames(bindings);
    forall id ensures Opens(d, id) <==> exists b :: b in bindings && b.id == id {
      var name := id + ".sqlite3";
      if b :| b in bindings && b.id == id { assert name in files; }
      if Opens(d, id) {
        assert name[|name| - 1] == '3';
        assert !Sidecar(name, files);
        var b :| b in bindings && name == b.id + ".sqlite3";
        SuffixTells(id, b.id);
      }
    }
  }

  lemma CreatedServes(bindings: seq<Binding>)
    ensures var dir := Created(FileNames(bindings));
      && Matches(dir, FileNames(bindings)) && Serves(Dirs(None, Some(dir), None), bindings)
      && (!Duplicates(bindings) ==> |dir| == |bindings|)
  {
    hide FileNames, Created;
    CreatedHolds(FileNames(bindings));
    MatchingServes(Dirs(None, Some(Created(FileNames(bindings))), None), bindings);
    OneFileEach(bindings);
  }

  // ---------------------------------------------------------------- the provider

  /** Every declared database has a file of its own. */
  lemma {:induction false} OneFileEach(bindings: seq<Binding>)
    ensures forall a, b :: a in bindings && b in bindings && a.id != b.id ==> a.id + ".sqlite3" != b.id + ".sqlite3"
    ensures forall f :: f in FileNames(bindings) <==> exists b :: b in bindings && f == b.id + ".sqlite3"
    ensures !Duplicates(bindings) ==> |FileNames(bindings)| == |bindings|
    decreases |bindings|
  {
    forall a, b | a in bindings && b in bindings && a.id != b.id ensures a.id + ".sqlite3" != b.id + ".sqlite3" {
      SuffixTells(a.id, b.id);
    }
    if bindings != [] {
      var n := |bindings| - 1;
      OneFileEach(bindings[..n]);
      assert bindings == bindings[..n] + [bindings[n]];
      assert FileNames(bindings) == FileNames(bindings[..n]) + {FileName(bindings[n].id)};
      if !Duplicates(bindings) {
        assert !Duplicates(bindings[..n]);
        forall b | b in bindings[..n] ensures FileName(b.id) != FileName(bindings[n].id) {
          var i :| 0 <= i < n && bindings[i] == b;
          SuffixTells(b.id, bindings[n].id);
        }
      }
    }
  }

  lemma SuffixTells(a: string, b: string)
    ensures a != b ==> a + ".sqlite3" != b + ".sqlite3"
  {
    assert (a + ".sqlite3")[..|a|] == a && (b + ".sqlite3")[..|b|] == b;
  }

  lemma CreatedHolds(files: set<string>)
    ensures Created(files).Keys == files && |Created(files)| == |files|
    ensures forall f :: f in files ==> Created(files)[f] == File(0)
  {
  }

  lemma CreatedMore(bindings: seq<Binding>, k: nat)
    requires k < |bindings|
    ensures Created(FileNames(bindings[..k + 1]))
         == Created(FileNames(bindings[..k]))[FileName(bindings[k].id) := File(0)]
  {
    assert bindings[..k + 1] == bindings[..k] + [bindings[k]];
  }

  lemma CreatedNothing(bindings: seq<Binding>)
    ensures Created(FileNames(bindings[..0])) == map[]
  {
  }

  function Find(dirs: map<nat, Dir>, i: nat): Option<Dir> { if i in dirs then Some(dirs[i]) else None }

  lemma FindOther(dirs: map<nat, Dir>, dirs': map<nat, Dir>, i: nat, other: nat)
    requires dirs - {i} == dirs' - {i} && other != i
    ensures Find(dirs, other) == Find(dirs', other)
  {
    assert other in dirs <==> other in dirs - {i};
    assert other in dirs' <==> other in dirs' - {i};
    assert other in dirs ==> dirs[other] == (dirs - {i})[other];
    assert other in dirs' ==> dirs'[other] == (dirs' - {i})[other];
  }

  class Provider {
    var staging: map<nat, Dir>
    var active: map<nat, Dir>
    var retained: map<nat, Dir>
    /** Nothing stops a call half way. */
    const steady: bool

    constructor (steady: bool)
      ensures staging == active == retained == map[] && this.steady == steady
    {
      staging, active, retained, this.steady := map[], map[], map[], steady;
    }

    ghost function View(i: nat): Dirs
      reads this
    {
      Dirs(Find(staging, i), Find(active, i), Find(retained, i))
    }

    method InstallationState(i: nat) returns (s: Result<State, Error>)
      ensures s.Err? <==> !Exclusive(View(i))
      ensures s.Err? ==> s.error == ConflictingInstallationState
      ensures s.Ok? ==> s.value == StateOf(View(i))
      ensures s.Err? <==>
        (i in active && i in retained) || (i in active && i in staging) || (i in retained && i in staging)
      ensures s.Ok? ==>
        && (s.value == Active <==> i in active) && (s.value == Retained <==> i in retained)
        && (s.value == Staged <==> i in staging)
    {
      var found := 0;
      if i in active { found := found + 1; }
      if i in retained { found := found + 1; }
      if i in staging { found := found + 1; }
      if found > 1 { return Err(ConflictingInstallationState); }
      return Ok(
        if i in active then Active else if i in retained then Retained else if i in staging then Staged else Absent);
    }

    method VerifyActiveBindings(dir: Dir, expected: set<string>) returns (ok: bool)
      ensures ok <==> Matches(dir, expected)
      ensures ok <==>
        && (forall f :: f in expected ==> f in dir)
        && (forall name :: name in dir ==> dir[name].File?)
        && (forall name :: name in dir && name !in expected ==>
          exists f :: f in expected && (name == f + "-wal" || name == f + "-shm" || name == f + "-journal"))
    {
      var found := {};
      var rest := dir.Keys;
      while rest != {}
        invariant rest <= dir.Keys
        invariant forall name :: name in dir.Keys - rest ==>
          dir[name].File? && (name in expected || Sidecar(name, expected))
        invariant found == expected * (dir.Keys - rest)
        decreases |rest|
      {
        var name :| name in rest;
        if !dir[name].File? { return false; }
        if name in expected {
          found := found + {name};
        } else if !Sidecar(name, expected) {
          return false;
        }
        rest := rest - {name};
      }
      assert dir.Keys - rest == dir.Keys;
      ok := found == expected;
    }

    method ValidateBindings(bindings: seq<Binding>) returns (r: Result<(), Error>)
      ensures r.Err? ==>
        || (r.error == MixedInstallationBindings && Mixed(bindings))
        || (r.error == DuplicateDatabaseBinding && Duplicates(bindings))
      ensures Mixed(bindings) || Duplicates(bindings) ==> r.Err?
    {
      var ids := {};
      for k := 0 to |bindings|
        invariant forall i :: 0 <= i < k ==> bindings[i].owner == bindings[0].owner
        invariant ids == set i | 0 <= i < k :: bindings[i].id
        invariant forall i, j :: 0 <= i < j < k ==> bindings[i].id != bindings[j].id
      {
        if bindings[k].owner != bindings[0].owner { return Err(MixedInstallationBindings); }
        if bindings[k].id in ids { return Err(DuplicateDatabaseBinding); }
        ids := ids + {bindings[k].id};
      }
      return Ok(());
    }

    /** Removing a directory tree can stop half way. */
    method RemoveStaging(i: nat) returns (ok: bool)
      modifies this
      ensures active == old(active) && retained == old(retained)
      ensures ok ==> staging == old(staging) - {i}
      ensures !ok ==> staging - {i} == old(staging) - {i} && !steady
    {
      if i in staging && !steady {
        if * {
          var left: set<string> := *;
          staging := staging[i := map name | name in staging[i] && name in left :: staging[i][name]];
          return false;
        }
      }
      staging := staging - {i};
      return true;
    }

    /** Only this installation's directories may differ. */
    twostate predicate OthersKept(i: nat)
      reads this
    {
      staging - {i} == old(staging) - {i} && active - {i} == old(active) - {i} && retained - {i} == old(retained) - {i}
    }

    /** Creates the databases in a new staging directory. */
    method BuildStaging(i: nat, bindings: seq<Binding>) returns (r: Outcome)
      requires i !in staging
      modifies this
      ensures OthersKept(i) && active == old(active) && retained == old(retained) && !r.Refused?
      ensures r == Done ==> i in staging && staging[i] == Created(FileNames(bindings))
      ensures steady ==> r != Interrupted
    {
      hide Created, FileNames, FileName;
      if !steady { if * { return Interrupted; } }
      staging := staging[i := map[]];
      CreatedNothing(bindings);
      for k := 0 to |bindings|
        invariant OthersKept(i) && i in staging && active == old(active) && retained == old(retained)
        invariant staging[i] == Created(FileNames(bindings[..k]))
      {
        if !steady {
          if * {
            if * { var _ := RemoveStaging(i); }
            return Interrupted;
          }
        }
        CreatedMore(bindings, k);
        staging := staging[i := staging[i][FileName(bindings[k].id) := File(0)]];
      }
      assert bindings[..|bindings|] == bindings;
      return Done;
    }

    /** Builds the databases beside and renames their directory into place. */
    method StageAndPublish(i: nat, bindings: seq<Binding>) returns (r: Outcome)
      requires i !in staging && i !in active && i !in retained
      modifies this
      ensures OthersKept(i)
      ensures View(i).retained.None? && !r.Refused?
      ensures View(i).active.None? || View(i) == Dirs(None, Some(Created(FileNames(bindings))), None)
      ensures r == Done ==> View(i).active.Some?
      ensures steady ==> r != Interrupted
    {
      hide FileNames, Created;
      r := BuildStaging(i, bindings);
      if r != Done { return; }
      if !steady {
        if * {
          if * { var _ := RemoveStaging(i); }
          return Interrupted;
        }
      }
      active, staging := active[i := staging[i]], staging - {i};
      if !steady { if * { return Interrupted; } }
      return Done;
    }

    method ProvisionInstallation(bindings: seq<Binding>) returns (r: Outcome)
      modifies this
      ensures bindings == [] ==>
        r == Done && staging == old(staging) && active == old(active) && retained == old(retained)
      ensures bindings != [] ==>
        var i := bindings[0].owner;
        && OthersKept(i)
        && ProvisionMay(old(View(i)), View(i), FileNames(bindings))
        && (r == Done ==> ProvisionRefusal(View(i), bindings) == None && View(i).active.Some?)
        && (r == Done ==> !Mixed(bindings) && !Duplicates(bindings))
        && (r == Done ==> Serves(View(i), bindings))
        && (r == Done && old(View(i)).active.None? ==> |View(i).active.value| == |bindings|)
        && (r.Refused? ==> View(i) == old(View(i)))
        && (r.Refused? ==>
          Mixed(bindings) || Duplicates(bindings) || ProvisionRefusal(old(View(i)), bindings) == Some(r.error))
      ensures steady ==> r != Interrupted
    {
      hide Created, FileNames, Matches, Serves;
      var valid := ValidateBindings(bindings);
      if valid.Err? { return Refused(valid.error); }
      if bindings == [] { return Done; }
      var i := bindings[0].owner;
      CreatedServes(bindings);
      if !steady { if * { return Interrupted; } }
      var state := InstallationState(i);
      match state {
        case Err(e) => return Refused(e);
        case Ok(Active) =>
          var same := VerifyActiveBindings(active[i], FileNames(bindings));
          if same { MatchingServes(View(i), bindings); }
          return if same then Done else Refused(ActiveDataMismatch);
        case Ok(Retained) => return Refused(RetainedDataExists);
        case Ok(Staged) =>
          var removed := RemoveStaging(i);
          if !removed { return Interrupted; }
        case Ok(Absent) =>
      }
      r := StageAndPublish(i, bindings);
    }

    /** Opens one database of an installation. */
    method Access(b: Binding) returns (r: Result<nat, Error>)
      ensures r.Ok? <==> Opens(View(b.owner), b.id)
      ensures r.Ok? ==> active[b.owner][b.id + ".sqlite3"] == File(r.value)
      ensures r.Err? ==> r.error == DatabaseNotActive
    {
      if b.owner !in active { return Err(DatabaseNotActive); }
      var name := FileName(b.id);
      if name !in active[b.owner] || !active[b.owner][name].File? { return Err(DatabaseNotActive); }
      return Ok(active[b.owner][name].content);
    }

    method RetainInstallation(i: nat) returns (r: Outcome)
      modifies this
      ensures OthersKept(i)
      ensures RetainMay(old(View(i)), View(i))
      ensures r == Done ==> View(i).active.None? && View(i).staging.None?
      ensures r == Done ==>
        View(i) == if old(View(i)).active.Some? then Dirs(None, None, old(View(i)).active) else old(View(i))
      ensures r.Refused? <==> r != Interrupted && (!Exclusive(old(View(i))) || old(View(i)).staging.Some?)
      ensures r.Refused? ==> View(i) == old(View(i))
      ensures steady ==> r != Interrupted
    {
      if !steady { if * { return Interrupted; } }
      var state := InstallationState(i);
      match state {
        case Err(e) => return Refused(e);
        case Ok(Absent) => return Done;
        case Ok(Retained) => return Done;
        case Ok(Staged) => return Refused(StagingDataExists);
        case Ok(Active) =>
          if !steady { if * { return Interrupted; } }
          retained, active := retained[i := active[i]], active - {i};
          if !steady { if * { return Interrupted; } }
          return Done;
      }
    }

    method RestoreInstallation(i: nat) returns (r: Outcome)
      modifies this
      ensures OthersKept(i)
      ensures RestoreMay(old(View(i)), View(i))
      ensures r == Done ==>
        View(i) == if old(View(i)).retained.Some? then Dirs(None, old(View(i)).retained, None) else old(View(i))
      ensures r.Refused? <==> r != Interrupted && (!Exclusive(old(View(i))) || old(View(i)).staging.Some?)
      ensures r.Refused? ==> View(i) == old(View(i))
      ensures steady ==> r != Interrupted
    {
      if !steady { if * { return Interrupted; } }
      var state := InstallationState(i);
      match state {
        case Err(e) => return Refused(e);
        case Ok(Absent) => return Done;
        case Ok(Active) => return Done;
        case Ok(Staged) => return Refused(StagingDataExists);
        case Ok(Retained) =>
          if !steady { if * { return Interrupted; } }
          active, retained := active[i := retained[i]], retained - {i};
          if !steady { if * { return Interrupted; } }
          return Done;
      }
    }
  }

  // ---------------------------------------------------------------- every run

  /** One call of the provider, interrupted anywhere or not at all. */
  ghost predicate CallMay(d: Dirs, d': Dirs) {
    (exists files :: ProvisionMay(d, d', files)) || RetainMay(d, d') || RestoreMay(d, d')
  }

  /** From an installation with at most one directory, every state that any run
      of calls and interruptions leaves has at most one directory again, and
      data that was once active or retained is never deleted or changed. */
  lemma {:induction false} DataSurvives(run: seq<Dirs>, k: nat)
    requires k < |run| && Exclusive(run[0])
    requires forall i :: 0 <= i < |run| - 1 ==> CallMay(run[i], run[i + 1])
    ensures Exclusive(run[k])
    ensures Held(run[0]).Some? ==> Held(run[k]) == Held(run[0])
  {
    if k > 0 {
      DataSurvives(run, k - 1);
      assert CallMay(run[k - 1], run[k - 1 + 1]);
    }
  }

  /** Replaying an interrupted provision, however often, is never refused; and
      once the databases are there, they are exactly the declared ones, all new. */
  lemma {:induction false} ProvisionReplays(run: seq<Dirs>, k: nat, bindings: seq<Binding>)
    requires k < |run| && StateOf(run[0]) == Absent
    requires forall i :: 0 <= i < |run| - 1 ==> ProvisionMay(run[i], run[i + 1], FileNames(bindings))
    ensures ProvisionRefusal(run[k], bindings) == None && run[k].retained.None?
    ensures run[k].active.Some? ==> run[k] == Dirs(None, Some(Created(FileNames(bindings))), None)
  {
    if k > 0 {
      ProvisionReplays(run, k - 1, bindings);
      assert ProvisionMay(run[k - 1], run[k - 1 + 1], FileNames(bindings));
    }
  }
}
