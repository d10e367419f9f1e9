/** Shell preferences and workspaces, saved under a revision check
    (persistence-sqlite/src/shell_preferences.rs). */
module Preferences {
  import opened Wrappers

  datatype Mode = Desktop | Launcher

  datatype Scope = User | Device

  datatype Update = SetMode(mode: Option<Mode>) | SetTheme(theme: Option<string>)

  datatype Error = Conflict | Limit | Unavailable

  /** One person's rows: the user row and the two override tables by device. */
  datatype Rows = Rows(revision: nat, mode: Mode, theme: string, modes: map<nat, Mode>, themes: map<nat, string>)

  const DEFAULT_THEME := "com.rumahl.default"
  const DEVICE_LIMIT: nat := 128
  const WORKSPACE_LIMIT: nat := 129
  const MAX_WORKSPACE_BYTES: nat := 65536
  const MAX_REVISION: nat := 9007199254740991

  function NoRows(): Rows { Rows(0, Desktop, DEFAULT_THEME, map[], map[]) }

  function OverrideRows(p: Rows): nat { |p.modes| + |p.themes| }

  function OverrideDevices(p: Rows): set<nat> { p.modes.Keys + p.themes.Keys }

  predicate Sets(u: Update) {
    match u case SetMode(m) => m.Some? case SetTheme(t) => t.Some?
  }

  /** Rows are counted, and only for a device that has none yet. */
  predicate OverLimit(p: Rows, device: nat, scope: Scope, u: Update) {
    scope == Device && Sets(u) && device !in p.modes && device !in p.themes && OverrideRows(p) >= DEVICE_LIMIT
  }

  predicate Accepts(p: Rows, device: nat, revision: nat, scope: Scope, u: Update) {
    p.revision == revision && revision + 1 <= MAX_REVISION && !OverLimit(p, device, scope, u)
  }

  function Changed(p: Rows, device: nat, scope: Scope, u: Update): Rows {
    match (scope, u)
    case (User, SetMode(m)) => p.(mode := if m.Some? then m.value else Desktop)
    case (User, SetTheme(t)) => p.(theme := if t.Some? then t.value else DEFAULT_THEME)
    case (Device, SetMode(m)) => p.(modes := if m.Some? then p.modes[device := m.value] else p.modes - {device})
    case (Device, SetTheme(t)) => p.(themes := if t.Some? then p.themes[device := t.value] else p.themes - {device})
  }

  function Saved(p: Rows, device: nat, scope: Scope, u: Update): Rows {
    Changed(p, device, scope, u).(revision := p.revision + 1)
  }

  predicate Bounded(p: Rows) {
    |OverrideDevices(p)| <= DEVICE_LIMIT && OverrideRows(p) <= 2 * DEVICE_LIMIT && p.revision <= MAX_REVISION
  }

  // ---------------------------------------------------------------- the store

  class Store {
    var rows: map<nat, Rows>

    constructor ()
      ensures forall user :: Of(user) == Rows(0, Desktop, "com.rumahl.default", map[], map[])
    {
      rows := map[];
    }

    function Of(user: nat): Rows
      reads this
    {
      if user in rows then rows[user] else NoRows()
    }

    method Save(user: nat, device: nat, revision: nat, scope: Scope, u: Update) returns (r: Result<Rows, Error>)
      modifies this
      ensures forall other :: other != user ==> Of(other) == old(Of(other))
      ensures r.Ok? <==> Accepts(old(Of(user)), device, revision, scope, u)
      ensures Of(user) == if r.Ok? then Saved(old(Of(user)), device, scope, u) else old(Of(user))
      ensures r.Ok? ==> r.value == Of(user)
      ensures r == Err(Conflict) <==> old(Of(user)).revision != revision
      ensures r == Err(Unavailable) <==> old(Of(user)).revision == revision && revision >= 9007199254740991
      ensures r == Err(Limit) <==>
        && old(Of(user)).revision == revision < 9007199254740991
        && scope == Device && Sets(u) && device !in old(Of(user)).modes && device !in old(Of(user)).themes
        && |old(Of(user)).modes| + |old(Of(user)).themes| >= 128
    {
      hide Saved;
      var current := Of(user);
      if current.revision != revision { return Err(Conflict); }
      if revision + 1 > MAX_REVISION { return Err(Unavailable); }
      var setsValue := match u case SetMode(m) => m.Some? case SetTheme(t) => t.Some?;
      var overridden := device in current.modes || device in current.themes;
      if scope == Device && setsValue && !overridden && |current.modes| + |current.themes| >= DEVICE_LIMIT {
        return Err(Limit);
      }
      var next := Edit(current, device, scope, u);
      rows := rows[user := next];
      return Ok(next);
    }

    /** The rows after the save's writes, one table at a time. */
    method Edit(current: Rows, device: nat, scope: Scope, u: Update) returns (next: Rows)
      ensures next == Saved(current, device, scope, u)
    {
      next := current.(revision := current.revision + 1);
      if scope == User {
        match u {
          case SetMode(m) => next := next.(mode := if m.Some? then m.value else Desktop);
          case SetTheme(t) => next := next.(theme := if t.Some? then t.value else DEFAULT_THEME);
        }
      } else {
        match u {
          case SetMode(Some(m)) => next := next.(modes := next.modes[device := m]);
          case SetMode(None) => next := next.(modes := next.modes - {device});
          case SetTheme(Some(t)) => next := next.(themes := next.themes[device := t]);
          case SetTheme(None) => next := next.(themes := next.themes - {device});
        }
      }
    }
  }

  // ---------------------------------------------------------------- bounds

  /** Rows are at least as many as devices and at most twice as many. */
  lemma RowsAndDevices(p: Rows)
    ensures |OverrideDevices(p)| <= OverrideRows(p) <= 2 * |OverrideDevices(p)|
  {
    var m, t := p.modes.Keys, p.themes.Keys;
    assert |m + t| + |m * t| == |m| + |t|;
    SubsetSize(m, m + t);
    SubsetSize(t, m + t);
  }

  /** Although the check counts rows and looks at new devices only, no accepted
      save takes a person past 128 devices or 256 rows. */
  lemma SaveKeepsBounded(p: Rows, device: nat, revision: nat, scope: Scope, u: Update)
    requires Bounded(p) && Accepts(p, device, revision, scope, u)
    ensures Bounded(Saved(p, device, scope, u))
    ensures |OverrideDevices(Saved(p, device, scope, u))| <= 128 && OverrideRows(Saved(p, device, scope, u)) <= 256
  {
    hide OverrideDevices, OverrideRows, Changed, Sets;
    var after := Saved(p, device, scope, u);
    RowsAndDevices(p);
    RowsAndDevices(after);
    DevicesAfter(p, device, scope, u);
    if scope == Device && Sets(u) {
      OneMoreDevice(p, device);
    } else {
      SubsetSize(OverrideDevices(after), OverrideDevices(p));
    }
    if OverrideDevices(after) == OverrideDevices(p) + {device} && device in OverrideDevices(p) {
      assert OverrideDevices(after) == OverrideDevices(p);
    }
  }

  lemma DevicesAfter(p: Rows, device: nat, scope: Scope, u: Update)
    ensures var after := OverrideDevices(Saved(p, device, scope, u));
      if scope == Device && Sets(u) then after == OverrideDevices(p) + {device} else after <= OverrideDevices(p)
  {
  }

  lemma OneMoreDevice(p: Rows, device: nat)
    ensures device in OverrideDevices(p) <==> device in p.modes || device in p.themes
    ensures |OverrideDevices(p) + {device}| <= |OverrideDevices(p)| + 1
  {
  }

  // ---------------------------------------------------------------- interleaved saves

  datatype Call = Call(device: nat, revision: nat, scope: Scope, update: Update)

  /** The accepted ones of a person's saves, in the order they were handled. */
  function Accepted(p: Rows, calls: seq<Call>): seq<Call>
    decreases |calls|
  {
    if calls == [] then []
    else
      var c := calls[0];
      if Accepts(p, c.device, c.revision, c.scope, c.update)
      then [c] + Accepted(Saved(p, c.device, c.scope, c.update), calls[1..])
      else Accepted(p, calls[1..])
  }

  function After(p: Rows, calls: seq<Call>): Rows
    decreases |calls|
  {
    if calls == [] then p
    else
      var c := calls[0];
      if Accepts(p, c.device, c.revision, c.scope, c.update)
      then After(Saved(p, c.device, c.scope, c.update), calls[1..])
      else After(p, calls[1..])
  }

  /** Updates applied one after another, revisions aside. */
  function Fold(p: Rows, calls: seq<Call>): Rows
    decreases |calls|
  {
    if calls == [] then p else Fold(Changed(p, calls[0].device, calls[0].scope, calls[0].update), calls[1..])
  }

  lemma {:induction false} FoldIgnoresRevision(p: Rows, calls: seq<Call>, revision: nat)
    ensures Fold(p.(revision := revision), calls) == Fold(p, calls).(revision := revision)
    decreases |calls|
  {
    if calls != [] {
      var c := calls[0];
      assert Changed(p.(revision := revision), c.device, c.scope, c.update)
          == Changed(p, c.device, c.scope, c.update).(revision := revision);
      FoldIgnoresRevision(Changed(p, c.device, c.scope, c.update), calls[1..], revision);
    }
  }

  lemma NothingFolds(p: Rows)
    ensures Fold(p, []) == p
  {
  }

  lemma FoldStep(p: Rows, calls: seq<Call>)
    requires calls != []
    ensures Fold(p, calls) == Fold(Changed(p, calls[0].device, calls[0].scope, calls[0].update), calls[1..])
  {
  }

  /** However saves interleave, the i-th accepted save carried the i-th revision,
      so no two carried the same one; the state is the accepted updates applied
      in revision order; and the bounds hold throughout. */
  lemma {:induction false} SavesAreSerial(p: Rows, calls: seq<Call>)
    requires Bounded(p)
    ensures var ok := Accepted(p, calls); var end := After(p, calls);
      && (forall i :: 0 <= i < |ok| ==> ok[i].revision == p.revision + i)
      && end == Fold(p, ok).(revision := p.revision + |ok|)
      && Bounded(end)
    decreases |calls|
  {
    hide Changed, Bounded, OverLimit, Fold;
    if calls == [] {
      NothingFolds(p);
    } else {
      var c := calls[0];
      if Accepts(p, c.device, c.revision, c.scope, c.update) {
        var next := Saved(p, c.device, c.scope, c.update);
        SaveKeepsBounded(p, c.device, c.revision, c.scope, c.update);
        SavesAreSerial(next, calls[1..]);
        var ok := Accepted(p, calls);
        assert ok[1..] == Accepted(next, calls[1..]);
        FoldStep(p, ok);
        FoldIgnoresRevision(Changed(p, c.device, c.scope, c.update), ok[1..], p.revision + 1);
      } else {
        SavesAreSerial(p, calls[1..]);
      }
    }
  }

  // ---------------------------------------------------------------- reading back

  datatype Slot = UserMode | UserTheme | DeviceMode(device: nat) | DeviceTheme(device: nat)

  datatype Setting = ModeIs(mode: Mode) | ThemeIs(theme: string)

  function Read(p: Rows, s: Slot): Option<Setting> {
    match s
    case UserMode => Some(ModeIs(p.mode))
    case UserTheme => Some(ThemeIs(p.theme))
    case DeviceMode(d) => if d in p.modes then Some(ModeIs(p.modes[d])) else None
    case DeviceTheme(d) => if d in p.themes then Some(ThemeIs(p.themes[d])) else None
  }

  function SlotOf(c: Call): Slot {
    match (c.scope, c.update)
    case (User, SetMode(_)) => UserMode
    case (User, SetTheme(_)) => UserTheme
    case (Device, SetMode(_)) => DeviceMode(c.device)
    case (Device, SetTheme(_)) => DeviceTheme(c.device)
  }

  /** What the save asks for: clearing a person's setting brings back the default,
      clearing a device's takes the override away. */
  function Asked(c: Call): Option<Setting> {
    match c.update
    case SetMode(Some(m)) => Some(ModeIs(m))
    case SetTheme(Some(t)) => Some(ThemeIs(t))
    case SetMode(None) => if c.scope == User then Some(ModeIs(Desktop)) else None
    case SetTheme(None) => if c.scope == User then Some(ThemeIs("com.rumahl.default")) else None
  }

  function LastAsked(before: Option<Setting>, ok: seq<Call>, s: Slot): Option<Setting> {
    if ok == [] then before
    else if SlotOf(ok[|ok| - 1]) == s then Asked(ok[|ok| - 1])
    else LastAsked(before, ok[..|ok| - 1], s)
  }

  lemma {:induction false} LastAskedFirst(before: Option<Setting>, c: Call, ok: seq<Call>, s: Slot)
    ensures LastAsked(before, [c] + ok, s) == LastAsked(if SlotOf(c) == s then Asked(c) else before, ok, s)
    decreases |ok|
  {
    if ok == [] {
      assert ([c] + ok)[..0] == [];
    } else {
      LastAskedFirst(before, c, ok[..|ok| - 1], s);
      assert ([c] + ok)[..|ok|] == [c] + ok[..|ok| - 1];
    }
  }

  lemma OneSaveReadsBack(p: Rows, c: Call, s: Slot)
    ensures Read(Saved(p, c.device, c.scope, c.update), s) == if SlotOf(c) == s then Asked(c) else Read(p, s)
  {
  }

  /** However saves interleave, every setting reads back what its last accepted save
      asked for, and is what it was if there was none. */
  lemma {:induction false} SettingsReadBack(p: Rows, calls: seq<Call>, s: Slot)
    ensures Read(After(p, calls), s) == LastAsked(Read(p, s), Accepted(p, calls), s)
    decreases |calls|
  {
    hide Read, SlotOf, Asked, Saved, Accepts, LastAsked;
    if calls == [] {
      assert LastAsked(Read(p, s), [], s) == Read(p, s) by { NothingAsked(Read(p, s), s); }
    } else {
      var c := calls[0];
      if Accepts(p, c.device, c.revision, c.scope, c.update) {
        var next := Saved(p, c.device, c.scope, c.update);
        SettingsReadBack(next, calls[1..], s);
        OneSaveReadsBack(p, c, s);
        LastAskedFirst(Read(p, s), c, Accepted(next, calls[1..]), s);
      } else {
        SettingsReadBack(p, calls[1..], s);
      }
    }
  }

  lemma NothingAsked(before: Option<Setting>, s: Slot)
    ensures LastAsked(before, [], s) == before
  {
  }

  // ---------------------------------------------------------------- workspaces

  type Bytes = seq<bv8>

  /** One person's stored workspaces, under no profile for the person and under a
      device's profile for the device. */
  datatype Shelf = Shelf(revision: nat, values: map<Option<nat>, Bytes>)

  datatype Keep = Keep(device: nat, revision: nat, scope: Scope, value: Option<Bytes>)

  datatype View = View(revision: nat, user: Option<Bytes>, device: Option<Bytes>)

  function Profile(c: Keep): Option<nat> { if c.scope == User then None else Some(c.device) }

  function At(w: Shelf, profile: Option<nat>): Option<Bytes> {
    if profile in w.values then Some(w.values[profile]) else None
  }

  predicate TooLong(c: Keep) { c.value.Some? && |c.value.value| > MAX_WORKSPACE_BYTES }

  /** The other workspaces are counted, so replacing one that is there is always
      possible. */
  predicate NoRoom(w: Shelf, c: Keep) { c.value.Some? && |w.values - {Profile(c)}| >= WORKSPACE_LIMIT }

  predicate Keeps(w: Shelf, c: Keep) {
    !TooLong(c) && w.revision == c.revision && c.revision + 1 <= MAX_REVISION && !NoRoom(w, c)
  }

  function Kept(w: Shelf, c: Keep): Shelf {
    Shelf(w.revision + 1, if c.value.Some? then w.values[Profile(c) := c.value.value] else w.values - {Profile(c)})
  }

  predicate ShelfBounded(w: Shelf) {
    && w.revision <= MAX_REVISION && |w.values| <= WORKSPACE_LIMIT
    && forall p :: p in w.values ==> |w.values[p]| <= MAX_WORKSPACE_BYTES
  }

  class Workspaces {
    var shelves: map<nat, Shelf>

    constructor ()
      ensures forall user :: Of(user) == Shelf(0, map[])
    {
      shelves := map[];
    }

    function Of(user: nat): Shelf
      reads this
    {
      if user in shelves then shelves[user] else Shelf(0, map[])
    }

    method Save(user: nat, c: Keep) returns (r: Result<View, Error>)
      modifies this
      ensures forall other :: other != user ==> Of(other) == old(Of(other))
      ensures r.Ok? <==> Keeps(old(Of(user)), c)
      ensures Of(user) == if r.Ok? then Kept(old(Of(user)), c) else old(Of(user))
      ensures r.Ok? ==> r.value == View(Of(user).revision, At(Of(user), None), At(Of(user), Some(c.device)))
      ensures r == Err(Conflict) <==> !TooLong(c) && old(Of(user)).revision != c.revision
      ensures r == Err(Unavailable) <==>
        !TooLong(c) && old(Of(user)).revision == c.revision && c.revision >= 9007199254740991
      ensures r == Err(Limit) <==>
        || (c.value.Some? && |c.value.value| > 65536)
        || (old(Of(user)).revision == c.revision < 9007199254740991 && NoRoom(old(Of(user)), c))
    {
      if c.value.Some? && |c.value.value| > MAX_WORKSPACE_BYTES { return Err(Limit); }
      var current := Of(user);
      if current.revision != c.revision { return Err(Conflict); }
      if c.revision + 1 > MAX_REVISION { return Err(Unavailable); }
      var profile := if c.scope == User then None else Some(c.device);
      var values := current.values;
      if c.value.Some? {
        if |values - {profile}| >= WORKSPACE_LIMIT { return Err(Limit); }
        values := values[profile := c.value.value];
      } else {
        values := values - {profile};
      }
      var next := Shelf(c.revision + 1, values);
      shelves := shelves[user := next];
      return Ok(View(next.revision, At(next, None), At(next, Some(c.device))));
    }
  }

  /** Although the check leaves out the workspace being saved, no accepted save
      takes a person past 129, and one that is there can always be replaced. */
  lemma KeepStaysBounded(w: Shelf, c: Keep)
    requires ShelfBounded(w)
    ensures Keeps(w, c) ==> ShelfBounded(Kept(w, c))
    ensures NoRoom(w, c) <==> c.value.Some? && Profile(c) !in w.values && |w.values| == 129
  {
    var profile := Profile(c);
    if profile in w.values {
      assert w.values.Keys == (w.values - {profile}).Keys + {profile};
      assert c.value.Some? ==> w.values[profile := c.value.value].Keys == w.values.Keys;
    } else {
      assert w.values - {profile} == w.values;
      assert c.value.Some? ==> w.values[profile := c.value.value].Keys == w.values.Keys + {profile};
    }
  }

  /** The accepted saves, in the order they were handled, and the shelf after
      all of them. */
  function Handled(w: Shelf, calls: seq<Keep>): (seq<Keep>, Shelf)
    decreases |calls|
  {
    if calls == [] then ([], w)
    else if Keeps(w, calls[0]) then
      var (ok, end) := Handled(Kept(w, calls[0]), calls[1..]);
      ([calls[0]] + ok, end)
    else Handled(w, calls[1..])
  }

  /** The value of the last of the saves that is for the profile. */
  function LastFor(before: Option<Bytes>, ok: seq<Keep>, profile: Option<nat>): Option<Bytes> {
    if ok == [] then before
    else if Profile(ok[|ok| - 1]) == profile then ok[|ok| - 1].value
    else LastFor(before, ok[..|ok| - 1], profile)
  }

  lemma {:induction false} LastAfterFirst(before: Option<Bytes>, c: Keep, ok: seq<Keep>, profile: Option<nat>)
    ensures LastFor(before, [c] + ok, profile)
         == LastFor(if Profile(c) == profile then c.value else before, ok, profile)
    decreases |ok|
  {
    if ok == [] {
      assert ([c] + ok)[..0] == [];
    } else {
      LastAfterFirst(before, c, ok[..|ok| - 1], profile);
      assert ([c] + ok)[..|ok|] == [c] + ok[..|ok| - 1];
    }
  }

  /** However saves interleave, the i-th accepted one carried the i-th revision,
      every profile holds what the last accepted save for it left, and the limits
      hold. */
  lemma {:induction false} WorkspacesAreSerial(w: Shelf, calls: seq<Keep>, profile: Option<nat>)
    requires ShelfBounded(w)
    ensures var (ok, end) := Handled(w, calls);
      && (forall i :: 0 <= i < |ok| ==> ok[i].revision == w.revision + i)
      && end.revision == w.revision + |ok| && ShelfBounded(end)
      && At(end, profile) == LastFor(At(w, profile), ok, profile)
    decreases |calls|
  {
    hide ShelfBounded, LastFor, NoRoom;
    if calls == [] {
      assert LastFor(At(w, profile), [], profile) == At(w, profile) by { NothingKept(At(w, profile), profile); }
    } else {
      var c := calls[0];
      KeepStaysBounded(w, c);
      if Keeps(w, c) {
        WorkspacesAreSerial(Kept(w, c), calls[1..], profile);
        LastAfterFirst(At(w, profile), c, Handled(Kept(w, c), calls[1..]).0, profile);
      } else {
        WorkspacesAreSerial(w, calls[1..], profile);
      }
    }
  }

  lemma NothingKept(before: Option<Bytes>, profile: Option<nat>)
    ensures LastFor(before, [], profile) == before
  {
  }
}
