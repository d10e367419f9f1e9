/** Restoring a backup over five volumes: stage, swap, clean up, under a marker
    that survives power loss (platform-buildroot/recovery/host.py). Unless it is
    steady, a machine may stop between any two filesystem calls. */
module Recovery {
  import opened Wrappers

  /** The volumes in the order they are handled: state, home, apps, docker,
      images. */
  const COUNT: nat := 5
  const STATE: nat := 0
  const DOCKER: nat := 3

  const STAGE := ".rre-stage"
  const PREVIOUS := ".rre-previous"

  datatype Content =
    | Bytes(data: nat)
    | Database(tables: map<string, set<nat>>, sound: bool)
    | Settings(safeMode: bool, autoRepair: bool)

  datatype Node = File(content: Content) | Dir(entries: map<string, Node>) | Link(target: string)

  type Tree = map<string, Node>

  datatype Outcome = Done | Interrupted | Refused

  // ---------------------------------------------------------------- archives

  datatype MemberKind = Regular | Directory | SymLink | HardLink | Whiteout | Other

  /** An archive member: its path without empty and dot parts, what it is, and
      where it points when it is a link. */
  datatype Member = Member(absolute: bool, parts: seq<string>, kind: MemberKind, toAbsolute: bool, toParts: seq<string>)

  /** An archive as stored, the tree it unpacks to, and whether it is a plain
      file with the recorded checksum. */
  datatype Archive = Archive(members: seq<Member>, tree: Tree, intact: bool)

  datatype Backup = Backup(version: nat, binding: nat, volumes: map<nat, Archive>)

  /** Unpacking creates a top-level entry exactly for the first part of each
      member's path. */
  ghost predicate Packs(a: Archive) {
    forall n :: n in a.tree <==>
      exists i :: 0 <= i < |a.members| && a.members[i].parts != [] && a.members[i].parts[0] == n
  }

  predicate Sane(m: Member, docker: bool) {
    && !m.absolute && ".." !in m.parts && STAGE !in m.parts && PREVIOUS !in m.parts
    && m.kind != Other && (m.kind == Whiteout ==> docker)
    && (m.kind == HardLink ==> !m.toAbsolute && ".." !in m.toParts)
  }

  predicate IsLink(m: Member) { m.kind == SymLink || m.kind == HardLink }

  predicate Under(m: Member, dir: seq<string>) { dir < m.parts }

  /** No member escapes, repeats, collides with the staging names, or is written
      through a link. */
  predicate Safe(members: seq<Member>, docker: bool) {
    && Plain(members, docker)
    && (forall i, j :: 0 <= i < |members| && 0 <= j < |members| && IsLink(members[j]) ==>
      !Under(members[i], members[j].parts))
  }

  predicate Plain(members: seq<Member>, docker: bool) {
    && (forall i :: 0 <= i < |members| ==> Sane(members[i], docker))
    && (forall i, j :: 0 <= i < j < |members| ==> members[i].parts != members[j].parts)
  }

  method CheckArchive(members: seq<Member>, docker: bool) returns (ok: bool)
    ensures ok <==> Safe(members, docker)
  {
    var plain, links := CollectLinks(members, docker);
    if !plain { return false; }
    for k := 0 to |members|
      invariant forall i, p :: 0 <= i < k && p in links ==> !Under(members[i], p)
    {
      var through := UnderAny(members[k], links);
      if through { return false; }
    }
    assert forall j :: 0 <= j < |members| && IsLink(members[j]) ==> members[j].parts in links;
    return true;
  }

  /** The first pass: one look at each member, collecting the links. */
  method CollectLinks(members: seq<Member>, docker: bool) returns (ok: bool, links: set<seq<string>>)
    ensures ok <==> Plain(members, docker)
    ensures ok ==> links == set i | 0 <= i < |members| && IsLink(members[i]) :: members[i].parts
  {
    hide Sane, IsLink;
    links := {};
    var seen: set<seq<string>> := {};
    for k := 0 to |members|
      invariant forall i :: 0 <= i < k ==> Sane(members[i], docker)
      invariant seen == set i | 0 <= i < k :: members[i].parts
      invariant forall i, j :: 0 <= i < j < k ==> members[i].parts != members[j].parts
      invariant links == set i | 0 <= i < k && IsLink(members[i]) :: members[i].parts
    {
      var m := members[k];
      if !Sane(m, docker) || m.parts in seen { return false, links; }
      seen := seen + {m.parts};
      if IsLink(m) { links := links + {m.parts}; }
    }
    return true, links;
  }

  /** Whether some parent of the member is a link. */
  method UnderAny(m: Member, links: set<seq<string>>) returns (found: bool)
    ensures found <==> exists p :: p in links && Under(m, p)
  {
    for n := 0 to |m.parts|
      invariant forall p :: p in links && |p| < n ==> !Under(m, p)
    {
      if m.parts[..n] in links {
        assert Under(m, m.parts[..n]);
        return true;
      }
      assert forall p :: Under(m, p) ==> m.parts[..|p|] == p;
    }
    return false;
  }

  /** The names the restore uses for itself never come out of an archive. */
  lemma StagingNamesBanned(a: Archive, docker: bool)
    requires Safe(a.members, docker) && Packs(a)
    ensures STAGE !in a.tree && PREVIOUS !in a.tree
  {
    forall i | 0 <= i < |a.members| && a.members[i].parts != []
      ensures a.members[i].parts[0] != STAGE && a.members[i].parts[0] != PREVIOUS
    {
      assert Sane(a.members[i], docker);
      assert a.members[i].parts[0] in a.members[i].parts;
    }
  }

  /** What an accepted archive is: no member leaves the volume, uses the restore's
      own names, comes twice, is anything but a file, a directory or a link, or
      lies behind a link of the archive. */
  lemma SafeMeans(members: seq<Member>, docker: bool)
    ensures Safe(members, docker) <==>
      && (forall i :: 0 <= i < |members| ==>
        && !members[i].absolute
        && (forall part :: part in members[i].parts ==>
          part != ".." && part != ".rre-stage" && part != ".rre-previous")
        && (members[i].kind in {Regular, Directory, SymLink, HardLink} || (docker && members[i].kind == Whiteout))
        && (members[i].kind == HardLink ==>
          && !members[i].toAbsolute
          && forall part :: part in members[i].toParts ==> part != ".."))
      && (forall i, j :: 0 <= i < j < |members| ==> members[i].parts != members[j].parts)
      && (forall i, j :: 0 <= i < |members| && 0 <= j < |members| && members[j].kind in {SymLink, HardLink} ==>
        !(members[j].parts < members[i].parts))
  {
  }

  predicate Complete(b: Backup) { forall r :: 0 <= r < COUNT ==> r in b.volumes }

  predicate Trusted(b: Backup, r: nat) {
    r in b.volumes && b.volumes[r].intact && Safe(b.volumes[r].members, r == DOCKER)
  }

  /** The backup is of this device and build, complete, unchanged and safe. */
  predicate Verified(b: Backup, binding: nat) {
    b.version == 1 && b.binding == binding && Complete(b) && forall r :: 0 <= r < COUNT ==> Trusted(b, r)
  }

  method Verify(b: Backup, binding: nat) returns (ok: bool)
    ensures ok <==> Verified(b, binding)
  {
    hide Safe;
    if b.version != 1 || b.binding != binding { return false; }
    if !Complete(b) { return false; }
    for r := 0 to COUNT
      invariant forall i :: 0 <= i < r ==> Trusted(b, i)
    {
      if !b.volumes[r].intact {
        assert !Trusted(b, r);
        return false;
      }
      var safe := CheckArchive(b.volumes[r].members, r == DOCKER);
      if !safe {
        assert !Trusted(b, r);
        return false;
      }
    }
    return true;
  }

  // ---------------------------------------------------------------- what a restore leaves

  const SETTINGS := "recovery-settings.json"

  const TOKEN_TABLES: set<string> := {
    "session_credential", "account_session", "oidc_access_token", "oidc_refresh_spent",
    "oidc_token_family", "oidc_authorization_code", "oidc_authorization_transaction" }

  predicate IsDatabase(name: string) {
    |name| >= 7 && name[|name| - 7..] == ".sqlite"
  }

  predicate SoundDatabase(n: Node) { n.File? && n.content.Database? && n.content.sound }

  predicate SoundDatabases(t: Tree) {
    && "accounts.sqlite" in t && "platform.sqlite" in t
    && (forall n :: n in t && IsDatabase(n) ==> SoundDatabase(t[n]))
  }

  predicate SoundState(t: Tree) {
    SoundDatabases(t) && (SETTINGS in t ==> t[SETTINGS].File?)
  }

  lemma SuffixIs(stem: string, name: string)
    ensures IsDatabase(stem + ".sqlite")
    ensures IsDatabase(name) ==> name == name[..|name| - 7] + ".sqlite"
  {
    var s := stem + ".sqlite";
    assert s[|s| - 7..] == ".sqlite";
  }

  /** The database of this name, if there is one, is sound. */
  predicate SoundAt(t: Tree, stem: string) {
    stem + ".sqlite" in t ==>
      var n := t[stem + ".sqlite"]; n.File? && n.content.Database? && n.content.sound
  }

  /** What the state volume of a backup must hold to be restored. */
  lemma SoundMeans(t: Tree)
    ensures SoundState(t) <==>
      && "accounts.sqlite" in t && "platform.sqlite" in t && (forall stem :: SoundAt(t, stem))
      && ("recovery-settings.json" in t ==> t["recovery-settings.json"].File?)
  {
    hide IsDatabase;
    if SoundDatabases(t) {
      forall stem: string ensures SoundAt(t, stem) { SuffixIs(stem, stem); }
    } else if forall stem :: SoundAt(t, stem) {
      forall n | n in t && IsDatabase(n) ensures SoundDatabase(t[n]) {
        SuffixIs("", n);
        assert SoundAt(t, n[..|n| - 7]);
      }
    }
  }

  function Cleared(n: Node): Node
    requires SoundDatabase(n)
  {
    File(Database(map t | t in n.content.tables :: if t in TOKEN_TABLES then {} else n.content.tables[t], true))
  }

  /** Every signed-in session and token is forgotten; everything else stays. */
  function Sanitized(t: Tree): Tree {
    map n | n in t :: if IsDatabase(n) && SoundDatabase(t[n]) then Cleared(t[n]) else t[n]
  }

  function SanitizedExcept(t: Tree, left: set<string>): Tree {
    map n | n in t :: if n !in left && IsDatabase(n) && SoundDatabase(t[n]) then Cleared(t[n]) else t[n]
  }

  function Target(r: nat, t: Tree): Tree {
    if r == STATE then Sanitized(t)[SETTINGS := File(Settings(true, false))] else t
  }

  function Restored(b: Backup): seq<Tree>
    requires Complete(b)
  {
    seq(COUNT, r requires 0 <= r < COUNT => Target(r, b.volumes[r].tree))
  }

  /** After a restore no database of the state volume holds a session or token
      row, every other table and every other entry is the backup's, and nothing
      is added but the settings that start the system in safe mode. */
  lemma RestoredForgets(t: Tree)
    requires SoundState(t)
    ensures var after := Target(STATE, t);
      && after.Keys == t.Keys + {SETTINGS} && after[SETTINGS] == File(Settings(true, false))
      && forall n :: n in t && n != SETTINGS ==>
        if !IsDatabase(n) then after[n] == t[n]
        else
          && SoundDatabase(after[n]) && after[n].content.tables.Keys == t[n].content.tables.Keys
          && forall table :: table in t[n].content.tables ==>
            after[n].content.tables[table] == if table in TOKEN_TABLES then {} else t[n].content.tables[table]
  {
    forall n | n in t && n != SETTINGS && IsDatabase(n) ensures Target(STATE, t)[n] == Cleared(t[n]) {
      assert SoundDatabase(t[n]);
    }
  }

  predicate Empty(tables: map<string, set<nat>>, table: string) { table in tables ==> tables[table] == {} }

  /** The file, if it is there, is a database in which no session and no token is
      left. */
  predicate SignedOut(t: Tree, name: string) {
    name in t ==>
      && t[name].File? && t[name].content.Database?
      && var tables := t[name].content.tables;
      && Empty(tables, "session_credential") && Empty(tables, "account_session")
      && Empty(tables, "oidc_access_token") && Empty(tables, "oidc_refresh_spent")
      && Empty(tables, "oidc_token_family") && Empty(tables, "oidc_authorization_code")
      && Empty(tables, "oidc_authorization_transaction")
  }

  /** In no database of the state volume is anyone signed in. */
  ghost predicate Forgets(t: Tree) {
    && "accounts.sqlite" in t && SignedOut(t, "accounts.sqlite")
    && "platform.sqlite" in t && SignedOut(t, "platform.sqlite")
    && forall stem: string :: SignedOut(t, stem + ".sqlite")
  }

  /** Every other table of a database is the backup's. */
  ghost predicate KeepsTables(t: Tree, backup: Tree, name: string) {
    name in backup && backup[name].File? && backup[name].content.Database? ==>
      && name in t && t[name].File? && t[name].content.Database?
      && t[name].content.tables.Keys == backup[name].content.tables.Keys
      && forall table :: table in backup[name].content.tables && table !in {
          "session_credential", "account_session", "oidc_access_token", "oidc_refresh_spent",
          "oidc_token_family", "oidc_authorization_code", "oidc_authorization_transaction" } ==>
        t[name].content.tables[table] == backup[name].content.tables[table]
  }

  ghost predicate EndsSqlite(name: string) { exists stem: string :: name == stem + ".sqlite" }

  /** Every entry but the settings and the databases is the backup's. */
  ghost predicate KeepsRest(t: Tree, backup: Tree) {
    && (forall stem: string :: KeepsTables(t, backup, stem + ".sqlite"))
    && forall name :: name in backup && name != "recovery-settings.json" && !EndsSqlite(name) ==>
      name in t && t[name] == backup[name]
  }

  /** A restore signs everyone out and changes nothing else. */
  lemma RestoredIsSignedOut(t: Tree)
    requires SoundState(t)
    ensures Forgets(Target(STATE, t)) && KeepsRest(Target(STATE, t), t)
  {
    hide IsDatabase;
    var after := Target(STATE, t);
    forall stem: string ensures SignedOut(after, stem + ".sqlite") && KeepsTables(after, t, stem + ".sqlite") {
      OneSignedOut(t, stem);
    }
    OneSignedOut(t, "accounts");
    OneSignedOut(t, "platform");
    assert "accounts" + ".sqlite" == "accounts.sqlite" && "platform" + ".sqlite" == "platform.sqlite";
    forall name | name in t && name != SETTINGS && !EndsSqlite(name)
      ensures after[name] == t[name]
    {
      SuffixIs("", name);
    }
  }

  lemma OneSignedOut(t: Tree, stem: string)
    requires SoundState(t)
    ensures SignedOut(Target(STATE, t), stem + ".sqlite") && KeepsTables(Target(STATE, t), t, stem + ".sqlite")
  {
    hide IsDatabase;
    var name := stem + ".sqlite";
    SuffixIs(stem, name);
    assert name != SETTINGS by { assert name[|name| - 1] == 'e' && SETTINGS[|SETTINGS| - 1] == 'n'; }
  }

  lemma RestoredState(b: Backup)
    requires Complete(b) && SoundState(b.volumes[STATE].tree)
    ensures Forgets(Restored(b)[STATE]) && KeepsRest(Restored(b)[STATE], b.volumes[STATE].tree)
  {
    hide Target, Forgets, KeepsRest;
    RestoredIsSignedOut(b.volumes[STATE].tree);
  }

  /** The other four volumes are the backup's as they are. */
  lemma RestoredRest(b: Backup)
    requires Complete(b)
    ensures |Restored(b)| == 5
    ensures 0 in b.volumes && 1 in b.volumes && 2 in b.volumes && 3 in b.volumes && 4 in b.volumes
    ensures Restored(b)[1] == b.volumes[1].tree && Restored(b)[2] == b.volumes[2].tree
    ensures Restored(b)[3] == b.volumes[3].tree && Restored(b)[4] == b.volumes[4].tree
  {
  }

  // ---------------------------------------------------------------- one volume while it is swapped

  /** Nothing the volume held has been lost: each entry is where it was or set
      aside. */
  predicate Kept(before: Tree, now: Tree) {
    forall n :: n in before ==>
      || (n in now && now[n] == before[n])
      || (PREVIOUS in now && now[PREVIOUS].Dir? && n in now[PREVIOUS].entries && now[PREVIOUS].entries[n] == before[n])
  }

  function Only(t: Tree, names: set<string>): Tree { map n | n in t && n in names :: t[n] }

  /** A volume with some entries at the root, some set aside, some still staged. */
  function Mixed(root: Tree, previous: Tree, stage: Tree): Tree {
    root[PREVIOUS := Dir(previous)][STAGE := Dir(stage)]
  }

  /** Renames within a volume. That the target name is free is proved at every
      call: no rename collides. */
  function MoveDown(t: Tree, name: string, dir: string): Tree
    requires name in t && dir in t && t[dir].Dir? && name != dir && name !in t[dir].entries
  {
    (t - {name})[dir := Dir(t[dir].entries[name := t[name]])]
  }

  function MoveUp(t: Tree, name: string, dir: string): Tree
    requires dir in t && t[dir].Dir? && name in t[dir].entries && name != dir && name !in t
  {
    t[dir := Dir(t[dir].entries - {name})][name := t[dir].entries[name]]
  }

  lemma MovedDown(before: Tree, left: set<string>, name: string, stage: Tree)
    requires STAGE !in before && PREVIOUS !in before && name in left && left <= before.Keys
    ensures var t := Mixed(Only(before, left), Only(before, before.Keys - left), stage);
      && name in t && PREVIOUS in t
      && t[PREVIOUS].Dir? && name != PREVIOUS && name !in t[PREVIOUS].entries
    ensures MoveDown(Mixed(Only(before, left), Only(before, before.Keys - left), stage), name, PREVIOUS)
      == Mixed(Only(before, left - {name}), Only(before, before.Keys - (left - {name})), stage)
  {
    assert Only(before, before.Keys - left)[name := before[name]] == Only(before, before.Keys - (left - {name}));
  }

  lemma MovedUp(target: Tree, left: set<string>, name: string, previous: Tree)
    requires STAGE !in target && PREVIOUS !in target && name in left && left <= target.Keys
    ensures var t := Mixed(Only(target, target.Keys - left), previous, Only(target, left));
      && STAGE in t
      && t[STAGE].Dir? && name in t[STAGE].entries && name != STAGE && name !in t
    ensures MoveUp(Mixed(Only(target, target.Keys - left), previous, Only(target, left)), name, STAGE)
      == Mixed(Only(target, target.Keys - (left - {name})), previous, Only(target, left - {name}))
  {
    assert Only(target, left) - {name} == Only(target, left - {name});
    assert Only(target, target.Keys - left)[name := target[name]] == Only(target, target.Keys - (left - {name}));
  }

  lemma MixedKeeps(before: Tree, left: set<string>, root: Tree, stage: Tree)
    requires STAGE !in before && PREVIOUS !in before && left <= before.Keys
    requires forall n :: n in left ==> n in root && root[n] == before[n]
    ensures Kept(before, Mixed(root, Only(before, before.Keys - left), stage))
  {
  }

  lemma AllAside(before: Tree, root: Tree, stage: Tree)
    ensures Kept(before, Mixed(root, before, stage))
  {
  }

  lemma MixedNames(root: Tree, previous: Tree, stage: Tree)
    ensures var t := Mixed(root, previous, stage);
      t.Keys == root.Keys + {STAGE, PREVIOUS} && t[STAGE] == Dir(stage) && t[PREVIOUS] == Dir(previous)
  {
  }

  /** What a restore leaves under its own names are directories. */
  predicate Sweepable(t: Tree) {
    (STAGE in t ==> t[STAGE].Dir?) && (PREVIOUS in t ==> t[PREVIOUS].Dir?)
  }

  lemma MixedSweeps(root: Tree, previous: Tree, stage: Tree)
    ensures Sweepable(Mixed(root, previous, stage))
  {
  }

  lemma StagedSweeps(before: Tree, target: Tree)
    requires STAGE !in before && Sweepable(Staged(before, target))
    ensures Sweepable(before)
  {
  }

  lemma StagedKeeps(before: Tree, target: Tree)
    requires STAGE !in before
    ensures Kept(before, Staged(before, target))
    ensures Sweepable(before) ==> Sweepable(Staged(before, target))
    ensures PREVIOUS !in before ==> Staged(before, target)[PREVIOUS := Dir(map[])] == Mixed(before, map[], target)
  {
  }

  lemma SwappedKeeps(before: Tree, target: Tree)
    requires STAGE !in target && PREVIOUS !in target
    ensures Mixed(target, before, map[]) - {STAGE} == Swapped(before, target)
    ensures Kept(before, Swapped(before, target)) && Sweepable(Swapped(before, target))
  {
  }

  function Staged(before: Tree, content: Tree): Tree { before[STAGE := Dir(content)] }

  function Swapped(before: Tree, target: Tree): Tree { target[PREVIOUS := Dir(before)] }

  /** At most a staging directory has been added. */
  predicate Beside(before: Tree, now: Tree) {
    now == before || (STAGE !in before && STAGE in now && now - {STAGE} == before)
  }

  lemma BesideKeeps(before: Tree, now: Tree)
    requires Beside(before, now)
    ensures Kept(before, now)
  {
  }

  // ---------------------------------------------------------------- one volume

  class Volume {
    const mounted: bool
    /** Nothing stops a call half way. */
    const steady: bool
    var tree: Tree

    constructor (mounted: bool, steady: bool, tree: Tree)
      ensures this.mounted == mounted && this.steady == steady && this.tree == tree
    {
      this.mounted, this.steady, this.tree := mounted, steady, tree;
    }

    /** Removing a directory tree can stop half way. */
    method RemoveTree(name: string) returns (out: Outcome)
      requires name in tree && tree[name].Dir?
      modifies this
      ensures tree - {name} == old(tree) - {name} && out != Refused
      ensures Sweepable(old(tree)) ==> Sweepable(tree)
      ensures name in tree ==> tree[name].Dir?
      ensures out == Done ==> name !in tree
      ensures steady ==> out != Interrupted
    {
      if !steady {
        if * {
          var kept: set<string> := *;
          tree := tree[name := Dir(Only(tree[name].entries, kept))];
          return Interrupted;
        }
      }
      tree := tree - {name};
      if !steady { if * { return Interrupted; } }
      return Done;
    }

    /** Unpacks an archive into a new staging directory. */
    method Unpack(content: Tree) returns (out: Outcome)
      modifies this
      ensures out != Interrupted ==> (out == Refused <==> !mounted || STAGE in old(tree))
      ensures out == Done ==> tree == Staged(old(tree), content)
      ensures Beside(old(tree), tree) && (Sweepable(old(tree)) ==> Sweepable(tree))
      ensures steady ==> out != Interrupted
    {
      if !steady { if * { return Interrupted; } }
      if !mounted || STAGE in tree { return Refused; }
      if !steady {
        if * {
          var unpacked: set<string> := *;
          tree := tree[STAGE := Dir(Only(content, unpacked))];
          return Interrupted;
        }
      }
      tree := tree[STAGE := Dir(content)];
      return Done;
    }

    /** Moves every entry of the volume into the directory set up for them. */
    method SetAside(ghost before: Tree, ghost target: Tree) returns (out: Outcome)
      requires STAGE !in before && PREVIOUS !in before
      requires tree == Mixed(before, map[], target)
      modifies this
      ensures Kept(before, tree) && Sweepable(tree) && out != Refused
      ensures out == Done ==> tree == Mixed(map[], before, target)
      ensures steady ==> out != Interrupted
    {
      hide MoveDown, Mixed, Kept, Sweepable;
      MixedNames(before, map[], target);
      var left := tree.Keys - {STAGE, PREVIOUS};
      assert Only(before, left) == before && Only(before, before.Keys - left) == map[];
      while left != {}
        invariant left <= before.Keys
        invariant tree == Mixed(Only(before, left), Only(before, before.Keys - left), target)
        decreases left
      {
        MixedKeeps(before, left, Only(before, left), target);
        MixedSweeps(Only(before, left), Only(before, before.Keys - left), target);
        if !steady { if * { return Interrupted; } }
        var child :| child in left;
        MovedDown(before, left, child, target);
        tree := MoveDown(tree, child, PREVIOUS);
        left := left - {child};
      }
      MixedKeeps(before, left, Only(before, left), target);
      MixedSweeps(Only(before, left), Only(before, before.Keys - left), target);
      assert Only(before, before.Keys - left) == before && Only(before, left) == map[];
      return Done;
    }

    /** Moves every staged entry to the root of the volume. */
    method BringIn(ghost before: Tree, ghost target: Tree) returns (out: Outcome)
      requires STAGE !in target && PREVIOUS !in target
      requires tree == Mixed(map[], before, target)
      modifies this
      ensures Kept(before, tree) && Sweepable(tree) && out != Refused
      ensures out == Done ==> tree == Mixed(target, before, map[])
      ensures steady ==> out != Interrupted
    {
      hide MoveUp, Mixed, Kept, Sweepable;
      MixedNames(map[], before, target);
      var left := tree[STAGE].entries.Keys;
      assert Only(target, left) == target && Only(target, target.Keys - left) == map[];
      while left != {}
        invariant left <= target.Keys
        invariant tree == Mixed(Only(target, target.Keys - left), before, Only(target, left))
        decreases left
      {
        AllAside(before, Only(target, target.Keys - left), Only(target, left));
        MixedSweeps(Only(target, target.Keys - left), before, Only(target, left));
        if !steady { if * { return Interrupted; } }
        var child :| child in left;
        MovedUp(target, left, child, before);
        tree := MoveUp(tree, child, STAGE);
        left := left - {child};
      }
      AllAside(before, Only(target, target.Keys - left), Only(target, left));
      MixedSweeps(Only(target, target.Keys - left), before, Only(target, left));
      assert Only(target, target.Keys - left) == target && Only(target, left) == map[];
      return Done;
    }

    /** Swaps the volume: its entries aside, the staged ones in. */
    method Swap(ghost before: Tree, ghost target: Tree) returns (out: Outcome)
      requires STAGE !in before && tree == Staged(before, target)
      requires STAGE !in target && PREVIOUS !in target
      modifies this
      ensures Kept(before, tree) && (Sweepable(before) ==> Sweepable(tree))
      ensures out == Done ==> tree == Swapped(before, target)
      ensures out != Interrupted ==> (out == Refused <==> PREVIOUS in before)
      ensures steady ==> out != Interrupted
    {
      hide Kept, Mixed, Sweepable;
      StagedKeeps(before, target);
      if PREVIOUS in tree { return Refused; }
      if !steady { if * { return Interrupted; } }
      tree := tree[PREVIOUS := Dir(map[])];
      out := SetAside(before, target);
      if out != Done { return; }
      out := BringIn(before, target);
      if out != Done { return; }
      if !steady { if * { return Interrupted; } }
      tree := tree - {STAGE};
      SwappedKeeps(before, target);
      if !steady { if * { return Interrupted; } }
      return Done;
    }

    method SweepName(name: string) returns (out: Outcome)
      modifies this
      ensures Sweepable(old(tree)) ==> Sweepable(tree)
      ensures tree - {name} == old(tree) - {name}
      ensures out == Done ==> name !in tree
      ensures out != Interrupted ==> (out == Done <==> name in old(tree) ==> old(tree)[name].Dir?)
      ensures steady ==> out != Interrupted
    {
      if name !in tree { return Done; }
      if !tree[name].Dir? { return Refused; }
      out := RemoveTree(name);
    }

    method Sweep() returns (out: Outcome)
      modifies this
      ensures Sweepable(old(tree)) ==> Sweepable(tree)
      ensures Cut(tree) == Cut(old(tree))
      ensures out == Done ==> STAGE !in tree && PREVIOUS !in tree
      ensures out != Interrupted ==> (out == Done <==> Sweepable(old(tree)))
      ensures steady ==> out != Interrupted
    {
      out := SweepName(STAGE);
      ghost var half := tree;
      CutBoth(half, old(tree), STAGE);
      assert PREVIOUS in half <==> PREVIOUS in old(tree) - {STAGE};
      assert PREVIOUS in half ==> half[PREVIOUS] == (half - {STAGE})[PREVIOUS];
      if out != Done { return; }
      out := SweepName(PREVIOUS);
      CutBoth(tree, half, PREVIOUS);
      assert STAGE in tree <==> STAGE in half - {PREVIOUS};
    }

    /** Forgets sessions and tokens in every staged database. */
    method InvalidateSessions(ghost content: Tree) returns (out: Outcome)
      requires STAGE in tree && tree[STAGE] == Dir(content)
      modifies this
      ensures STAGE in tree && tree[STAGE].Dir? && tree - {STAGE} == old(tree) - {STAGE}
      ensures Sweepable(old(tree)) ==> Sweepable(tree)
      ensures out == Done ==> tree[STAGE] == Dir(Sanitized(content))
      ensures out != Interrupted ==> (out == Refused <==> !SoundDatabases(content))
      ensures steady ==> out != Interrupted
    {
      hide IsDatabase, Cleared, SoundDatabase;
      var stage := tree[STAGE].entries;
      if "accounts.sqlite" !in stage || "platform.sqlite" !in stage { return Refused; }
      var left := stage.Keys;
      while left != {}
        invariant left <= content.Keys
        invariant STAGE in tree && tree[STAGE] == Dir(stage) && tree - {STAGE} == old(tree) - {STAGE}
        invariant Sweepable(old(tree)) ==> Sweepable(tree)
        invariant forall n :: n in content && n !in left && IsDatabase(n) ==> SoundDatabase(content[n])
        invariant stage == SanitizedExcept(content, left)
        decreases left
      {
        if !steady { if * { return Interrupted; } }
        var name :| name in left;
        if IsDatabase(name) {
          if !SoundDatabase(stage[name]) { return Refused; }
          stage := stage[name := Cleared(stage[name])];
          tree := tree[STAGE := Dir(stage)];
        }
        left := left - {name};
      }
      assert SanitizedExcept(content, left) == Sanitized(content);
      if !steady { if * { return Interrupted; } }
      return Done;
    }
  }

  /** A restored tree never carries the names of the swap. */
  lemma TargetsClear(b: Backup, r: nat)
    requires Trusted(b, r) && Packs(b.volumes[r])
    ensures STAGE !in Target(r, b.volumes[r].tree) && PREVIOUS !in Target(r, b.volumes[r].tree)
  {
    hide Safe, Packs, Sanitized;
    StagingNamesBanned(b.volumes[r], r == DOCKER);
    assert SETTINGS[0] != STAGE[0] && SETTINGS[0] != PREVIOUS[0];
    SanitizedNames(b.volumes[r].tree);
  }

  lemma SanitizedNames(t: Tree)
    ensures Sanitized(t).Keys == t.Keys
  {
  }

  // ---------------------------------------------------------------- the host

  /** Every volume still holds what it held, or every volume holds the restored
      tree and only clearing up is left. */
  predicate OneGeneration(before: seq<Tree>, target: seq<Tree>, now: seq<Tree>)
    requires |before| == |target| == |now|
  {
    || (forall r :: 0 <= r < |now| ==> Kept(before[r], now[r]))
    || (forall r :: 0 <= r < |now| ==> now[r] - {PREVIOUS} == target[r])
  }

  ghost predicate WellPacked(b: Backup) { forall r :: r in b.volumes ==> Packs(b.volumes[r]) }

  class Host {
    const volumes: seq<Volume>
    const steady: bool
    var pending: bool
    var safeMode: bool
    var running: bool

    constructor (volumes: seq<Volume>, steady: bool)
      ensures this.volumes == volumes && this.steady == steady && !pending && !safeMode && running
    {
      this.volumes, this.steady, pending, safeMode, running := volumes, steady, false, false, true;
    }

    ghost predicate Valid() {
      && |volumes| == COUNT && (forall i, j :: 0 <= i < j < |volumes| ==> volumes[i] != volumes[j])
      && forall i :: 0 <= i < |volumes| ==> volumes[i].steady == steady
    }

    ghost predicate AllSweepable()
      reads volumes
    {
      forall r :: 0 <= r < |volumes| ==> Sweepable(volumes[r].tree)
    }

    ghost function Trees(): (t: seq<Tree>)
      reads volumes
      ensures |t| == |volumes| && forall i :: 0 <= i < |t| ==> t[i] == volumes[i].tree
    {
      seq(|volumes|, i requires 0 <= i < |volumes| reads volumes => volumes[i].tree)
    }

    /** Unpacks every archive beside the live content of its volume. */
    method StageAll(b: Backup, ghost before: seq<Tree>) returns (out: Outcome)
      requires Valid() && before == Trees() && forall r :: 0 <= r < COUNT ==> r in b.volumes
      modifies volumes
      ensures old(AllSweepable()) ==> AllSweepable()
      ensures forall r :: 0 <= r < COUNT ==> Beside(before[r], volumes[r].tree)
      ensures out == Done ==> forall r :: 0 <= r < COUNT ==> volumes[r].tree == Staged(before[r], b.volumes[r].tree)
      ensures out != Interrupted ==>
        (out == Done <==> forall r :: 0 <= r < COUNT ==> volumes[r].mounted && STAGE !in before[r])
      ensures steady ==> out != Interrupted
    {
      hide Sweepable, Staged, STAGE;
      for k := 0 to COUNT
        invariant old(AllSweepable()) ==> AllSweepable()
        invariant forall r :: 0 <= r < k ==>
          volumes[r].mounted && STAGE !in before[r] && Beside(before[r], volumes[r].tree)
        invariant forall r :: 0 <= r < k ==> volumes[r].tree == Staged(before[r], b.volumes[r].tree)
        invariant forall r :: k <= r < COUNT ==> volumes[r].tree == before[r]
      {
        out := volumes[k].Unpack(b.volumes[k].tree);
        if out != Done { return; }
      }
      return Done;
    }

    /** Checks and sanitizes the staged state, and makes it start in safe mode. */
    method PrepareState(ghost before: Tree, ghost content: Tree) returns (out: Outcome)
      requires Valid() && volumes[STATE].tree == Staged(before, content) && STAGE !in before
      modifies volumes[STATE]
      ensures old(AllSweepable()) ==> AllSweepable()
      ensures Beside(before, volumes[STATE].tree)
      ensures out == Done ==> volumes[STATE].tree == Staged(before, Target(STATE, content))
      ensures out != Interrupted ==> (out == Refused <==> !SoundState(content))
      ensures steady ==> out != Interrupted
    {
      hide Sanitized, SoundDatabases;
      var state := volumes[STATE];
      out := state.InvalidateSessions(content);
      assert Beside(before, state.tree);
      if out != Done { return; }
      SanitizedFiles(content);
      var stage := state.tree[STAGE].entries;
      if SETTINGS in stage && !stage[SETTINGS].File? { return Refused; }
      if !steady { if * { return Interrupted; } }
      state.tree := state.tree[STAGE := Dir(stage[SETTINGS := File(Settings(true, false))])];
      assert state.tree == Staged(before, Target(STATE, content));
      if !steady { if * { return Interrupted; } }
      return Done;
    }

    method SwapAll(ghost before: seq<Tree>, ghost target: seq<Tree>) returns (out: Outcome)
      requires Valid() && |before| == |target| == COUNT
      requires forall r :: 0 <= r < COUNT ==> STAGE !in before[r] && STAGE !in target[r] && PREVIOUS !in target[r]
      requires forall r :: 0 <= r < COUNT ==> volumes[r].tree == Staged(before[r], target[r])
      modifies volumes
      ensures old(AllSweepable()) ==> AllSweepable()
      ensures forall r :: 0 <= r < COUNT ==> Kept(before[r], volumes[r].tree)
      ensures out == Done ==> forall r :: 0 <= r < COUNT ==> volumes[r].tree == Swapped(before[r], target[r])
      ensures out != Interrupted ==> (out == Done <==> forall r :: 0 <= r < COUNT ==> PREVIOUS !in before[r])
      ensures steady ==> out != Interrupted
    {
      hide Sweepable, Staged, Swapped, STAGE, PREVIOUS, Kept;
      forall r | 0 <= r < COUNT ensures Kept(before[r], volumes[r].tree) { StagedKeeps(before[r], target[r]); }
      for k := 0 to COUNT
        invariant forall r :: 0 <= r < COUNT ==> Sweepable(old(volumes[r].tree)) ==> Sweepable(volumes[r].tree)
        invariant forall r :: 0 <= r < COUNT ==> Kept(before[r], volumes[r].tree)
        invariant forall r :: 0 <= r < k ==> PREVIOUS !in before[r] && volumes[r].tree == Swapped(before[r], target[r])
        invariant forall r :: k <= r < COUNT ==> volumes[r].tree == Staged(before[r], target[r])
      {
        if Sweepable(volumes[k].tree) { StagedSweeps(before[k], target[k]); }
        out := volumes[k].Swap(before[k], target[k]);
        if out != Done { return; }
      }
      return Done;
    }

    /** Deletes what was set aside. */
    method CleanAll(ghost target: seq<Tree>) returns (out: Outcome)
      requires Valid() && |target| == COUNT
      requires forall r :: 0 <= r < COUNT ==>
        PREVIOUS in volumes[r].tree && volumes[r].tree[PREVIOUS].Dir? && volumes[r].tree - {PREVIOUS} == target[r]
      modifies volumes
      ensures old(AllSweepable()) ==> AllSweepable()
      ensures forall r :: 0 <= r < COUNT ==> volumes[r].tree - {PREVIOUS} == target[r]
      ensures out == Done ==> forall r :: 0 <= r < COUNT ==> volumes[r].tree == target[r]
      ensures out != Refused
      ensures steady ==> out != Interrupted
    {
      hide Sweepable, PREVIOUS;
      for k := 0 to COUNT
        invariant old(AllSweepable()) ==> AllSweepable()
        invariant forall r :: 0 <= r < COUNT ==> volumes[r].tree - {PREVIOUS} == target[r]
        invariant forall r :: 0 <= r < k ==> volumes[r].tree == target[r]
        invariant forall r :: k <= r < COUNT ==> PREVIOUS in volumes[r].tree && volumes[r].tree[PREVIOUS].Dir?
      {
        out := volumes[k].RemoveTree(PREVIOUS);
        if out != Done { return; }
        assert volumes[k].tree - {PREVIOUS} == volumes[k].tree;
      }
      return Done;
    }

    /** No earlier restore left anything over and every volume is there. */
    ghost predicate Clear()
      reads volumes
    {
      forall r :: 0 <= r < |volumes| ==> volumes[r].mounted && STAGE !in volumes[r].tree && PREVIOUS !in volumes[r].tree
    }

    /** Everything up to the first rename: all content of the backup stands
        staged, checked and sanitized, beside what the volumes hold. */
    method StagePhase(b: Backup, ghost before: seq<Tree>) returns (out: Outcome)
      requires Valid() && before == Trees() && Complete(b)
      modifies volumes
      ensures old(AllSweepable()) ==> AllSweepable()
      ensures forall r :: 0 <= r < COUNT ==> Beside(before[r], volumes[r].tree)
      ensures out == Done ==> forall r :: 0 <= r < COUNT ==> volumes[r].tree == Staged(before[r], Restored(b)[r])
      ensures out != Interrupted ==>
        (out == Done <==>
          && (forall r :: 0 <= r < COUNT ==> volumes[r].mounted && STAGE !in before[r])
          && SoundState(b.volumes[STATE].tree))
      ensures steady ==> out != Interrupted
    {
      hide Sweepable, Beside, Staged, STAGE, Target, SoundState;
      out := StageAll(b, before);
      if out != Done { return; }
      out := PrepareState(before[STATE], b.volumes[STATE].tree);
      forall r | 0 <= r < COUNT ensures r != STATE ==> Restored(b)[r] == b.volumes[r].tree {
        TargetElsewhere(r, b.volumes[r].tree);
      }
    }

    /** Swaps every volume and then clears what was set aside. */
    method SwapPhase(ghost before: seq<Tree>, ghost target: seq<Tree>) returns (out: Outcome)
      requires Valid() && |before| == |target| == COUNT
      requires forall r :: 0 <= r < COUNT ==> STAGE !in before[r] && STAGE !in target[r] && PREVIOUS !in target[r]
      requires forall r :: 0 <= r < COUNT ==> volumes[r].tree == Staged(before[r], target[r])
      modifies volumes
      ensures old(AllSweepable()) ==> AllSweepable()
      ensures OneGeneration(before, target, Trees())
      ensures out == Done ==> Trees() == target
      ensures out != Interrupted ==> (out == Done <==> forall r :: 0 <= r < COUNT ==> PREVIOUS !in before[r])
      ensures steady ==> out != Interrupted
    {
      hide Sweepable, Kept, Staged, Swapped, STAGE, PREVIOUS;
      out := SwapAll(before, target);
      if out != Done { return; }
      if !steady { if * { return Interrupted; } }
      forall r | 0 <= r < COUNT
        ensures PREVIOUS in volumes[r].tree && volumes[r].tree[PREVIOUS].Dir?
          && volumes[r].tree - {PREVIOUS} == target[r]
      {
        SwappedOut(before[r], target[r]);
      }
      out := CleanAll(target);
    }

    /** Both phases, with the marker set throughout. */
    method ReplaceAll(b: Backup, binding: nat) returns (out: Outcome)
      requires Valid() && WellPacked(b) && Verified(b, binding)
      modifies volumes
      ensures old(AllSweepable()) ==> AllSweepable()
      ensures OneGeneration(old(Trees()), Restored(b), Trees())
      ensures out == Done ==> Trees() == Restored(b)
      ensures out != Interrupted ==> (out == Done <==> old(Clear()) && SoundState(b.volumes[STATE].tree))
      ensures steady ==> out != Interrupted
    {
      hide Sweepable, Kept, Beside, Staged, Swapped, STAGE, PREVIOUS, Target, SoundState, Trusted, Packs;
      hide OneGeneration, Restored;
      ghost var before := Trees();
      TargetsAllClear(b, binding);
      out := StagePhase(b, before);
      BesideGeneration(before, Restored(b), Trees());
      if out != Done { return; }
      if !steady { if * { return Interrupted; } }
      out := SwapPhase(before, Restored(b));
    }

    /** The restore. Until every volume is swapped nothing is lost, and the
        marker is absent only over one generation. */
    method RestoreSnapshot(b: Backup, binding: nat) returns (out: Outcome)
      requires Valid() && WellPacked(b)
      modifies this`pending, this`safeMode, volumes
      ensures old(AllSweepable()) ==> AllSweepable()
      ensures out == Done ==> Complete(b) && !pending && safeMode && Trees() == Restored(b)
      ensures !pending && out != Done ==>
        || (Trees() == old(Trees()) && !old(pending))
        || (Complete(b) && Trees() == Restored(b) && safeMode)
      ensures Trees() == old(Trees()) || (Complete(b) && OneGeneration(old(Trees()), Restored(b), Trees()))
      ensures out != Interrupted ==>
        (out == Done <==> Verified(b, binding) && old(Clear()) && SoundState(b.volumes[STATE].tree))
      ensures old(safeMode) ==> safeMode
      ensures out == Done ==> Forgets(volumes[STATE].tree) && KeepsRest(volumes[STATE].tree, b.volumes[STATE].tree)
      ensures steady ==> out != Interrupted
    {
      hide Sweepable, SoundState, Trusted, Packs, OneGeneration, Restored, STAGE, PREVIOUS, AllSweepable, Clear;
      hide WellPacked, Trees, Forgets, KeepsRest;
      var ok := Verify(b, binding);
      if !ok { return Refused; }
      if !steady { if * { return Interrupted; } }
      pending := true;
      out := ReplaceAll(b, binding);
      if out != Done { return; }
      if !steady { if * { return Interrupted; } }
      safeMode := true;
      if !steady { if * { return Interrupted; } }
      pending := false;
      if !steady { if * { return Interrupted; } }
      RestoredState(b);
      assert volumes[STATE].tree == Trees()[STATE];
      return Done;
    }

    /** Writes the mode into the state volume and the marker beside it. */
    method PersistMode(safe: bool) returns (out: Outcome)
      requires Valid()
      modifies this`safeMode, volumes[STATE]
      ensures volumes[STATE].tree - {SETTINGS} == old(volumes[STATE].tree) - {SETTINGS}
      ensures out == Done ==> safeMode == safe
      ensures safeMode == old(safeMode) || safeMode == safe
      ensures safe && SafeSettings(old(volumes[STATE].tree)) ==>
        volumes[STATE].tree == old(volumes[STATE].tree) && out != Refused
      ensures steady ==> out != Interrupted
    {
      var state := volumes[STATE];
      var autoRepair := false;
      if SETTINGS in state.tree {
        if !state.tree[SETTINGS].File? { return Refused; }
        var content := state.tree[SETTINGS].content;
        autoRepair := content.Settings? && content.autoRepair;
      }
      if !steady { if * { return Interrupted; } }
      state.tree := state.tree[SETTINGS := File(Settings(safe, autoRepair))];
      if !steady { if * { return Interrupted; } }
      safeMode := safe;
      if !steady { if * { return Interrupted; } }
      return Done;
    }

    /** A restore followed by the mode it leaves the system in. */
    method RestoreAndPersist(b: Backup, binding: nat) returns (out: Outcome)
      requires Valid() && WellPacked(b)
      modifies this`pending, this`safeMode, volumes
      ensures old(AllSweepable()) ==> AllSweepable()
      ensures out == Done ==> Complete(b) && !pending && safeMode && Trees() == Restored(b)
      ensures !pending && out != Done ==>
        || (Trees() == old(Trees()) && !old(pending))
        || (Complete(b) && Trees() == Restored(b) && safeMode)
      ensures out != Interrupted ==>
        (out == Done <==> Verified(b, binding) && old(Clear()) && SoundState(b.volumes[STATE].tree))
      ensures old(safeMode) ==> safeMode
      ensures out == Done ==> Forgets(volumes[STATE].tree) && KeepsRest(volumes[STATE].tree, b.volumes[STATE].tree)
      ensures steady ==> out != Interrupted
    {
      hide Forgets, KeepsRest;
      hide Sweepable, SoundState, Trusted, Packs, OneGeneration, STAGE, PREVIOUS, Target, SETTINGS, SafeSettings;
      out := RestoreSnapshot(b, binding);
      if out != Done { return; }
      TargetIsSafe(b.volumes[STATE].tree);
      assert volumes[STATE].tree == Trees()[STATE];
      out := PersistMode(true);
      assert Trees() == Restored(b);
    }

    /** Removes what interrupted restores left in the volumes. */
    method SweepAll() returns (out: Outcome)
      requires Valid()
      modifies volumes
      ensures old(AllSweepable()) ==> AllSweepable()
      ensures forall r :: 0 <= r < COUNT ==> Cut(volumes[r].tree) == Cut(old(volumes[r].tree))
      ensures out == Done ==> forall r :: 0 <= r < COUNT ==> STAGE !in volumes[r].tree && PREVIOUS !in volumes[r].tree
      ensures out != Interrupted ==> (out == Done <==> old(AllSweepable()))
      ensures steady ==> out != Interrupted
    {
      hide Sweepable, Cut, STAGE, PREVIOUS;
      for k := 0 to COUNT
        invariant forall r :: 0 <= r < k ==> Sweepable(old(volumes[r].tree))
        invariant old(AllSweepable()) ==> AllSweepable()
        invariant forall r :: 0 <= r < k ==>
          STAGE !in volumes[r].tree && PREVIOUS !in volumes[r].tree && Cut(volumes[r].tree) == Cut(old(volumes[r].tree))
        invariant forall r :: k <= r < COUNT ==> volumes[r].tree == old(volumes[r].tree)
      {
        out := volumes[k].Sweep();
        if out != Done { return; }
      }
      return Done;
    }

    /** The redo: from whatever state an interrupted restore left. */
    method OfflineRestore(b: Backup, binding: nat) returns (out: Outcome)
      requires Valid() && WellPacked(b)
      modifies this, volumes
      ensures old(AllSweepable()) ==> AllSweepable()
      ensures out == Done ==> Complete(b) && Trees() == Restored(b) && !pending && safeMode && !running
      ensures !pending && out != Done ==>
        (Trees() == old(Trees()) && !old(pending)) || (Complete(b) && Trees() == Restored(b) && safeMode)
      ensures out != Interrupted ==>
        (out == Done <==>
          Verified(b, binding) && old(AllSweepable()) && AllMounted() && SoundState(b.volumes[STATE].tree))
      ensures old(safeMode) ==> safeMode
      ensures out == Done ==> Forgets(volumes[STATE].tree) && KeepsRest(volumes[STATE].tree, b.volumes[STATE].tree)
      ensures steady ==> out != Interrupted
    {
      hide Forgets, KeepsRest;
      hide Sweepable, SoundState, Verified, Packs, Restored, STAGE, PREVIOUS, Cut;
      var ok := Verify(b, binding);
      if !ok { return Refused; }
      running := false;
      if !steady { if * { return Interrupted; } }
      pending := true;
      out := SweepAll();
      if out != Done { return; }
      out := RestoreAndPersist(b, binding);
    }

    ghost predicate AllMounted() {
      forall r :: 0 <= r < |volumes| ==> volumes[r].mounted
    }

    /** What every client of the volumes may rely on between jobs. */
    ghost predicate Coherent(was: seq<Tree>, b: Backup)
      reads this, volumes
    {
      !pending ==> Trees() == was || (Complete(b) && Trees() == Restored(b) && safeMode)
    }

    /** A restore requested while the system runs: stop the writers, restore,
        and start them again only if no restore is pending. A safety backup is
        made first and may fail. */
    method RestoreJob(b: Backup, binding: nat) returns (out: Outcome)
      requires Valid() && WellPacked(b) && running
      modifies this, volumes
      ensures old(pending) ==> out == Refused && Trees() == old(Trees())
      ensures !old(pending) ==> Coherent(old(Trees()), b) && (running ==> !pending)
      ensures out == Done ==> Complete(b) && Trees() == Restored(b) && safeMode && !pending && !running
      ensures old(AllSweepable()) ==> AllSweepable()
      ensures old(safeMode) ==> safeMode
      ensures old(pending) ==> pending && safeMode == old(safeMode)
      ensures steady ==>
        (out == Done <==> !old(pending) && Verified(b, binding) && old(Clear()) && SoundState(b.volumes[STATE].tree))
      ensures steady ==> out != Interrupted
    {
      hide Sweepable, SoundState, Packs, STAGE, PREVIOUS, Restored, Verified, AllSweepable, Clear, Complete;
      hide WellPacked, Trees;
      if pending { return Refused; }
      var ok := Verify(b, binding);
      if !ok { return Refused; }
      running := false;
      if !steady {
        if * {
          // Stopping a writer or making the safety backup failed.
          running := true;
          return Refused;
        }
      }
      if !steady { if * { return Interrupted; } }
      out := RestoreAndPersist(b, binding);
      if out == Done { return; }
      // An error is handled here; a power loss is not.
      if !steady { if * { return Interrupted; } }
      if !pending { running := true; }
    }

    /** The service manager starts the writers unless the marker is there. */
    method Boot()
      modifies this`running
      ensures running <==> !pending
    {
      running := !pending;
    }

    /** One restore, stopped anywhere, and the boot that follows. */
    method Cycle(job: Job, binding: nat)
      requires Valid() && (running ==> !pending) && WellPacked(job.backup)
      modifies this, volumes
      ensures (running ==> !pending) && (old(safeMode) ==> safeMode) && (old(AllSweepable()) ==> AllSweepable())
      ensures !pending ==>
        || (!old(pending) && Trees() == old(Trees()))
        || (Complete(job.backup) && Trees() == Restored(job.backup) && safeMode)
    {
      hide Sweepable, SoundState, Packs, STAGE, PREVIOUS, Restored, Verified;
      var out;
      if job.offline || !running {
        out := OfflineRestore(job.backup, binding);
      } else {
        out := RestoreJob(job.backup, binding);
      }
      Boot();
    }

    /** What the writers make of the volumes while they run. */
    method WritersWrite(trees: seq<Tree>)
      requires Valid() && running && |trees| == COUNT
      modifies volumes
      ensures Trees() == trees
    {
      for k := 0 to COUNT
        invariant forall r :: 0 <= r < k ==> volumes[r].tree == trees[r]
      {
        volumes[k].tree := trees[k];
      }
    }

    /** The volumes hold what was there, or one of the backups from the given one
        on. */
    ghost predicate OneOf(was: Option<seq<Tree>>, jobs: seq<Job>, since: nat, n: nat)
      requires n <= |jobs|
      reads this, volumes
    {
      || was == Some(Trees())
      || exists k :: since <= k < n && Complete(jobs[k].backup) && Trees() == Restored(jobs[k].backup) && safeMode
    }

    /** Restores of any backups, each stopped anywhere and followed by a boot, with
        writers writing whenever they run: what writers are started over is always
        one generation, what was last there with no restore pending, or exactly one
        of the backups restored since. */
    method RestoreAndBoot(jobs: seq<Job>, binding: nat) returns (ghost was: Option<seq<Tree>>, ghost since: nat)
      requires Valid() && (running ==> !pending) && forall k :: 0 <= k < |jobs| ==> Proper(jobs[k])
      modifies this, volumes
      ensures running ==> !pending
      ensures !pending ==> OneOf(was, jobs, since, |jobs|)
      ensures (since == 0 && was == if old(pending) then None else Some(old(Trees())))
        || (since < |jobs| && was == jobs[since].written && was.Some?)
      ensures old(AllSweepable()) && (forall k :: 0 <= k < |jobs| ==> KeepsOff(jobs[k])) ==> AllSweepable()
    {
      hide Sweepable, SoundState, Packs, STAGE, PREVIOUS, Restored, Verified;
      was, since := if pending then None else Some(Trees()), 0;
      ghost var start := was;
      for i := 0 to |jobs|
        invariant old(AllSweepable()) && (forall k :: 0 <= k < |jobs| ==> KeepsOff(jobs[k])) ==> AllSweepable()
        invariant running ==> !pending
        invariant !pending ==> OneOf(was, jobs, since, i)
        invariant (since == 0 && was == start) || (since < i && was == jobs[since].written && was.Some?)
      {
        if running && jobs[i].written.Some? {
          WritersWrite(jobs[i].written.value);
          was, since := jobs[i].written, i;
          assert forall r :: 0 <= r < |volumes| ==> volumes[r].tree == Trees()[r];
        }
        Cycle(jobs[i], binding);
      }
    }
  }

  /** A restore, and what the writers write before it if they run. */
  datatype Job = Job(written: Option<seq<Tree>>, backup: Backup, offline: bool)

  ghost predicate Proper(j: Job) {
    WellPacked(j.backup) && (j.written.Some? ==> |j.written.value| == COUNT)
  }

  /** The writers leave the restore's own names alone. */
  predicate KeepsOff(j: Job) {
    j.written.Some? ==> forall r :: 0 <= r < |j.written.value| ==> Sweepable(j.written.value[r])
  }

  predicate SafeSettings(t: Tree) {
    SETTINGS in t && t[SETTINGS] == File(Settings(true, false))
  }

  /** A volume without what restores put there. */
  function Cut(t: Tree): Tree { t - {STAGE, PREVIOUS} }

  lemma CutBoth(t: Tree, u: Tree, name: string)
    requires t - {name} == u - {name} && (name == STAGE || name == PREVIOUS)
    ensures Cut(t) == Cut(u)
  {
    assert Cut(t) == (t - {name}) - {STAGE, PREVIOUS};
    assert Cut(u) == (u - {name}) - {STAGE, PREVIOUS};
  }

  lemma TargetIsSafe(t: Tree)
    ensures SafeSettings(Target(STATE, t))
  {
  }

  lemma TargetsAllClear(b: Backup, binding: nat)
    requires Verified(b, binding) && WellPacked(b)
    ensures |Restored(b)| == COUNT
    ensures forall r :: 0 <= r < COUNT ==> STAGE !in Restored(b)[r] && PREVIOUS !in Restored(b)[r]
  {
    hide Sweepable, Target, STAGE, PREVIOUS, Trusted, Packs;
    forall r | 0 <= r < COUNT ensures STAGE !in Restored(b)[r] && PREVIOUS !in Restored(b)[r] {
      TargetsClear(b, r);
    }
  }

  lemma BesideGeneration(before: seq<Tree>, target: seq<Tree>, now: seq<Tree>)
    requires |before| == |target| == |now| && forall r :: 0 <= r < |now| ==> Beside(before[r], now[r])
    ensures OneGeneration(before, target, now)
  {
    hide Sweepable, Beside;
    forall r | 0 <= r < |now| ensures Kept(before[r], now[r]) { BesideKeeps(before[r], now[r]); }
  }

  lemma TargetElsewhere(r: nat, t: Tree)
    ensures r != STATE ==> Target(r, t) == t
  {
  }

  lemma SwappedOut(before: Tree, target: Tree)
    requires PREVIOUS !in target
    ensures var t := Swapped(before, target);
      PREVIOUS in t && t[PREVIOUS].Dir? && t - {PREVIOUS} == target
  {
  }

  lemma SanitizedFiles(t: Tree)
    requires SoundDatabases(t)
    ensures Sanitized(t).Keys == t.Keys
    ensures SETTINGS in t ==> Sanitized(t)[SETTINGS] == t[SETTINGS]
  {
    assert SETTINGS[|SETTINGS| - 7..][6] == 'n';
    assert !IsDatabase(SETTINGS);
  }
}
