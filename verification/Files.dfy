/** One person's files as rows that name their parent, with the quota and the
    ancestor walk that keep them a tree (persistence-sqlite/src/personal_files.rs). */
module Files {
  import opened Wrappers

  datatype Row = Row(parent: string, name: string, directory: bool, data: string)

  type Table = map<string, Row>

  datatype Error = Missing | Invalid | Conflict | Limit | Unavailable

  const ROOT := "root"
  const MAX_ENTRIES: nat := 1000
  const MAX_FILE: nat := 16 * 1024 * 1024
  const MAX_TOTAL: nat := 128 * 1024 * 1024
  const ID_LENGTH: nat := 32

  // ---------------------------------------------------------------- names

  predicate Control(c: char) { c < ' ' || '\U{7F}' <= c <= '\U{9F}' }

  predicate White(c: char) {
    || c == ' ' || c == '\U{A0}' || c == '\U{1680}' || '\U{2000}' <= c <= '\U{200A}'
    || c == '\U{2028}' || c == '\U{2029}' || c == '\U{202F}' || c == '\U{205F}' || c == '\U{3000}'
  }

  function Utf8Length(s: string): nat {
    if s == [] then 0
    else
      var first := if s[0] < '\U{80}' then 1 else if s[0] < '\U{800}' then 2 else if s[0] < '\U{10000}' then 3 else 4;
      first + Utf8Length(s[1..])
  }

  predicate NameValid(n: string) {
    && (exists i :: 0 <= i < |n| && !White(n[i]))
    && Utf8Length(n) <= 255 && n != "." && n != ".."
    && forall i :: 0 <= i < |n| ==> !Control(n[i]) && n[i] != '/' && n[i] != '\\'
  }

  lemma {:induction false} Utf8Adds(a: string, b: string)
    ensures Utf8Length(a + b) == Utf8Length(a) + Utf8Length(b)
  {
    if a == [] {
      assert a + b == b;
    } else {
      assert (a + b)[0] == a[0] && (a + b)[1..] == a[1..] + b;
      Utf8Adds(a[1..], b);
    }
  }

  /** A character takes one byte up to U+007F, two up to U+07FF, three up to U+FFFF
      and four beyond. */
  lemma Utf8One(c: char)
    ensures Utf8Length([c]) ==
      if c <= '\U{7F}' then 1 else if c <= '\U{7FF}' then 2 else if c <= '\U{FFFF}' then 3 else 4
  {
    assert [c][1..] == [];
  }

  /** White space beyond the control characters. */
  const SPACES: set<int> := {
    0x20, 0xA0, 0x1680, 0x2000, 0x2001, 0x2002, 0x2003, 0x2004, 0x2005, 0x2006, 0x2007, 0x2008, 0x2009, 0x200A,
    0x2028, 0x2029, 0x202F, 0x205F, 0x3000 }

  /** What a name may be. */
  lemma NameRules(n: string)
    ensures NameValid(n) <==>
      && (exists c :: c in n && c as int !in SPACES) && Utf8Length(n) <= 255 && n != "." && n != ".."
      && (forall c :: c in n ==> c != '/' && c != '\\' && !('\0' <= c <= '\U{1F}') && !('\U{7F}' <= c <= '\U{9F}'))
  {
    assert forall i :: 0 <= i < |n| ==> n[i] in n;
    forall c: char ensures White(c) <==> c as int in SPACES { }
    assert (exists i :: 0 <= i < |n| && !White(n[i])) <==> exists c :: c in n && !White(c);
  }

  // ---------------------------------------------------------------- the tree

  predicate IsDirectory(t: Table, p: string) { p == ROOT || (p in t && t[p].directory) }

  predicate Taken(t: Table, parent: string, name: string, except: string) {
    exists x :: x in t && x != except && t[x].parent == parent && t[x].name == name
  }

  lemma NoEmptyId(t: Table)
    requires Valid(t)
    ensures "" !in t
  {
  }

  lemma DirectoryIs(t: Table, p: string)
    ensures IsDirectory(t, p) <==> p == "root" || (p in t && t[p].directory)
  {
  }

  lemma TakenIs(t: Table, p: string, n: string, except: string)
    ensures Taken(t, p, n, except) <==> exists x :: x in t && x != except && t[x].parent == p && t[x].name == n
  {
  }

  predicate Siblings(t: Table) {
    forall x, y :: x in t && y in t && x != y && t[x].parent == t[y].parent ==> t[x].name != t[y].name
  }

  /** Heights that fall from every entry to its parent. */
  predicate Ranks(t: Table, rank: map<string, nat>) {
    && (forall x :: x in t ==> x in rank)
    && forall x :: x in t && t[x].parent != ROOT ==> t[x].parent in t && rank[t[x].parent] < rank[x]
  }

  /** Every entry hangs from the root through directories that exist. */
  ghost predicate Tree(t: Table) {
    && ROOT !in t
    && (forall x :: x in t ==> IsDirectory(t, t[x].parent))
    && exists rank :: Ranks(t, rank)
  }

  ghost function Total(t: Table): nat {
    if t == map[] then 0 else var x :| x in t; |t[x].data| + Total(t - {x})
  }

  predicate Sizes(t: Table) {
    forall x :: x in t ==> |x| == ID_LENGTH && |t[x].data| <= MAX_FILE && (t[x].directory ==> t[x].data == [])
  }

  ghost predicate Valid(t: Table) {
    Tree(t) && Siblings(t) && Sizes(t) && |t| <= MAX_ENTRIES && Total(t) <= MAX_TOTAL
  }

  /** A walk from an entry up through its parents. */
  predicate Chain(t: Table, path: seq<string>) {
    && path != []
    && forall i :: 0 <= i < |path| - 1 ==> path[i] in t && path[i + 1] == t[path[i]].parent
  }

  ghost predicate ChainTo(t: Table, path: seq<string>, p: string, id: string) {
    Chain(t, path) && path[0] == p && path[|path| - 1] == id
  }

  /** The directory lies in the subtree of the entry, or is the entry. */
  ghost predicate Below(t: Table, p: string, id: string) {
    exists path :: ChainTo(t, path, p, id)
  }

  /** Parents are unique: walks from one entry agree as far as they go. */
  lemma {:induction false} ChainsAgree(t: Table, a: seq<string>, b: seq<string>, i: nat)
    requires Chain(t, a) && Chain(t, b) && a[0] == b[0] && i < |a| && i < |b|
    ensures a[i] == b[i]
  {
    if i > 0 {
      ChainsAgree(t, a, b, i - 1);
      assert a[i - 1 + 1] == t[a[i - 1]].parent && b[i - 1 + 1] == t[b[i - 1]].parent;
    }
  }

  /** A walk from a directory that has not met the entry before its last step. */
  ghost predicate Walked(t: Table, walk: seq<string>, p: string, at: string, id: string) {
    ChainTo(t, walk, p, at) && forall i :: 0 <= i < |walk| - 1 ==> walk[i] != id
  }

  lemma WalkOn(t: Table, walk: seq<string>, p: string, at: string, id: string)
    requires Walked(t, walk, p, at, id) && at in t && at != id
    ensures Walked(t, walk + [t[at].parent], p, t[at].parent, id)
  {
  }

  /** A walk that ended at the root without meeting the entry missed nothing. */
  lemma WalkDecides(t: Table, walk: seq<string>, p: string, id: string)
    requires ROOT !in t && id != ROOT && Walked(t, walk, p, ROOT, id)
    ensures !Below(t, p, id)
  {
    forall path | ChainTo(t, path, p, id) ensures false {
      if |path| <= |walk| {
        ChainsAgree(t, path, walk, |path| - 1);
      } else {
        ChainsAgree(t, path, walk, |walk| - 1);
      }
    }
  }

  lemma BelowUp(t: Table, x: string, id: string)
    requires x in t && x != id
    ensures Below(t, x, id) <==> Below(t, t[x].parent, id)
  {
    if path :| ChainTo(t, path, x, id) {
      assert path[0 + 1] == t[path[0]].parent;
      assert ChainTo(t, path[1..], t[x].parent, id);
    }
    if path :| ChainTo(t, path, t[x].parent, id) {
      assert ChainTo(t, [x] + path, x, id);
    }
  }

  /** Only entries are met on the way up. */
  lemma BelowIsEntry(t: Table, p: string, id: string)
    requires Tree(t) && IsDirectory(t, p) && id != ROOT && Below(t, p, id)
    ensures id in t
  {
    var path :| ChainTo(t, path, p, id);
    var n := |path| - 1;
    if n > 0 {
      assert path[n - 1 + 1] == t[path[n - 1]].parent;
      assert IsDirectory(t, t[path[n - 1]].parent);
    }
  }

  lemma BelowItself(t: Table, id: string)
    ensures Below(t, id, id)
  {
    assert ChainTo(t, [id], id, id);
  }

  /** Nothing ever hangs below a file, or below an entry that is not there. */
  lemma ParentsAreDirectories(t: Table)
    requires Valid(t)
    ensures forall x :: x in t ==> t[x].parent == "root" || (t[x].parent in t && t[t[x].parent].directory)
  {
    forall x | x in t ensures t[x].parent == "root" || (t[x].parent in t && t[t[x].parent].directory) {
      assert IsDirectory(t, t[x].parent);
    }
  }

  // ---------------------------------------------------------------- changes keep the tree

  lemma TotalWithout(t: Table, k: string)
    requires k in t
    ensures Total(t) == |t[k].data| + Total(t - {k})
    decreases |t|
  {
    var x :| x in t && Total(t) == |t[x].data| + Total(t - {x});
    if x != k {
      TotalWithout(t - {x}, k);
      TotalWithout(t - {k}, x);
      assert t - {x} - {k} == t - {k} - {x};
    }
  }

  lemma InsertTree(t: Table, id: string, row: Row)
    requires Tree(t) && id !in t && id != ROOT && IsDirectory(t, row.parent)
    ensures Tree(t[id := row])
  {
    var t' := t[id := row];
    var rank :| Ranks(t, rank);
    var rank' := rank[id := if row.parent == ROOT then 0 else rank[row.parent] + 1];
    assert forall x :: x in t ==> t[x].parent != id by {
      forall x | x in t ensures t[x].parent != id { assert IsDirectory(t, t[x].parent); }
    }
    assert Ranks(t', rank');
    forall x | x in t' ensures IsDirectory(t', t'[x].parent) {
      if x != id { assert IsDirectory(t, t[x].parent); }
    }
  }

  lemma InsertTotal(t: Table, id: string, row: Row)
    requires id !in t
    ensures Total(t[id := row]) == Total(t) + |row.data| && |t[id := row]| == |t| + 1
  {
    TotalWithout(t[id := row], id);
    assert t[id := row] - {id} == t;
  }

  lemma InsertKeeps(t: Table, id: string, row: Row)
    requires Valid(t) && id !in t && |id| == ID_LENGTH && IsDirectory(t, row.parent)
      && !Taken(t, row.parent, row.name, "")
    requires |row.data| <= MAX_FILE && (row.directory ==> row.data == [])
    requires |t| < MAX_ENTRIES && Total(t) + |row.data| <= MAX_TOTAL
    ensures Valid(t[id := row])
  {
    hide Tree, IsDirectory, Total;
    InsertTree(t, id, row);
    InsertTotal(t, id, row);
    forall x | x in t ensures t[x].parent != row.parent || t[x].name != row.name { assert |x| == ID_LENGTH; }
  }

  lemma DeleteTree(t: Table, id: string)
    requires Tree(t) && forall x :: x in t ==> t[x].parent != id
    ensures Tree(t - {id})
  {
    var t' := t - {id};
    var rank :| Ranks(t, rank);
    assert Ranks(t', rank);
    forall x | x in t' ensures IsDirectory(t', t'[x].parent) { assert IsDirectory(t, t[x].parent); }
  }

  lemma DeleteKeeps(t: Table, id: string)
    requires Valid(t) && id in t && forall x :: x in t ==> t[x].parent != id
    ensures Valid(t - {id})
  {
    hide Tree, Total;
    DeleteTree(t, id);
    TotalWithout(t, id);
    assert |t - {id}| == |t| - 1;
  }

  /** Moving an entry anywhere outside its own subtree keeps the tree: the moved
      subtree is lifted above its new parent. */
  lemma MoveTree(t: Table, id: string, p: string, n: string)
    requires Tree(t) && id in t && IsDirectory(t, p) && !Below(t, p, id)
    ensures Tree(t[id := t[id].(parent := p, name := n)])
  {
    var t' := t[id := t[id].(parent := p, name := n)];
    var rank :| Ranks(t, rank);
    var lift := if p == ROOT then 0 else rank[p] + 1;
    var rank' := map x | x in t :: if Below(t, x, id) then rank[x] + lift else rank[x];
    forall x | x in t' && t'[x].parent != ROOT ensures t'[x].parent in t' && rank'[t'[x].parent] < rank'[x] {
      if x == id {
        BelowItself(t, id);
      } else {
        BelowUp(t, x, id);
      }
    }
    assert Ranks(t', rank');
    forall x | x in t' ensures IsDirectory(t', t'[x].parent) { assert IsDirectory(t, t[x].parent); }
  }

  lemma MoveTotal(t: Table, id: string, row: Row)
    requires id in t && row.data == t[id].data
    ensures Total(t[id := row]) == Total(t) && t[id := row].Keys == t.Keys && |t[id := row]| == |t|
  {
    TotalWithout(t, id);
    TotalWithout(t[id := row], id);
    assert t[id := row] - {id} == t - {id};
    assert t[id := row].Keys == t.Keys;
  }

  lemma MoveKeeps(t: Table, id: string, p: string, n: string)
    requires Valid(t) && id in t && IsDirectory(t, p) && !Below(t, p, id) && !Taken(t, p, n, id)
    ensures Valid(t[id := t[id].(parent := p, name := n)])
  {
    hide Tree, IsDirectory, Total, Below;
    MoveTree(t, id, p, n);
    MoveTotal(t, id, t[id].(parent := p, name := n));
  }

  function FirstAt(path: seq<string>, id: string): (k: nat)
    requires id in path
    ensures k < |path| && path[k] == id && forall i :: 0 <= i < k ==> path[i] != id
  {
    if path[0] == id then 0 else 1 + FirstAt(path[1..], id)
  }

  /** Up to the moved entry, ranks of the changed table fall along the old walk. */
  lemma {:induction false} RanksFall(t: Table, t': Table, rank: map<string, nat>, path: seq<string>, id: string, i: nat)
    requires Chain(t, path) && ROOT !in t && i < |path| && path[i] in t
    requires t'.Keys == t.Keys && (forall x :: x in t && x != id ==> t'[x] == t[x]) && Ranks(t', rank)
    requires forall j :: 0 <= j < i ==> path[j] != id
    ensures path[0] in t && rank[path[i]] <= rank[path[0]]
  {
    if i > 0 {
      assert path[i - 1] in t && path[i - 1 + 1] == t[path[i - 1]].parent;
      RanksFall(t, t', rank, path, id, i - 1);
    }
  }

  /** A move into the entry's own subtree would cut it off from the root. */
  lemma MoveUnderItself(t: Table, id: string, p: string, n: string)
    requires ROOT !in t && id in t && Below(t, p, id)
    ensures !Tree(t[id := t[id].(parent := p, name := n)])
  {
    var t' := t[id := t[id].(parent := p, name := n)];
    var path :| ChainTo(t, path, p, id);
    var k := FirstAt(path, id);
    assert t'[id].parent == p;
    forall rank | Ranks(t', rank) ensures false {
      RanksFall(t, t', rank, path, id, k);
    }
  }

  /** The move is refused exactly where it would break the tree. */
  lemma MoveExact(t: Table, id: string, p: string, n: string)
    requires Tree(t) && id in t && IsDirectory(t, p)
    ensures Tree(t[id := t[id].(parent := p, name := n)]) <==> !Below(t, p, id)
  {
    hide Tree, Below, IsDirectory;
    assert ROOT !in t by { RootIsNoEntry(t); }
    if Below(t, p, id) { MoveUnderItself(t, id, p, n); } else { MoveTree(t, id, p, n); }
  }

  lemma RootIsNoEntry(t: Table)
    requires Tree(t)
    ensures ROOT !in t
  {
  }

  // ---------------------------------------------------------------- the store

  class Store {
    var rows: map<nat, Table>

    constructor ()
      ensures rows == map[]
    {
      rows := map[];
    }

    function Of(u: nat): Table
      reads this
    {
      if u in rows then rows[u] else map[]
    }

    ghost predicate AllValid()
      reads this
    {
      forall u :: Valid(Of(u))
    }

    /** The person's entries, counted and summed. */
    method Usage(u: nat) returns (count: nat, size: nat)
      ensures count == |Of(u)| && size == Total(Of(u))
    {
      var t := Of(u);
      count, size := 0, 0;
      while t != map[]
        invariant count + |t| == |Of(u)| && size + Total(t) == Total(Of(u))
        decreases |t|
      {
        var x :| x in t;
        TotalWithout(t, x);
        count, size, t := count + 1, size + |t[x].data|, t - {x};
      }
    }

    /** No data makes a directory. The identifier is the random value drawn for
        the entry. */
    method Create(u: nat, p: string, n: string, data: Option<string>, id: string) returns (r: Result<(), Error>)
      requires AllValid() && |id| == 32
      modifies this
      ensures AllValid() && forall v :: v != u ==> Of(v) == old(Of(v))
      ensures var content := if data.Some? then data.value else []; var t := old(Of(u));
        && (r.Ok? ==> Of(u) == t[id := Row(p, n, data.None?, content)])
        && (r.Err? ==> Of(u) == t)
        && (r == Err(Invalid) <==> !NameValid(n))
        && (r == Err(Missing) <==> NameValid(n) && |content| <= 16777216 && !IsDirectory(t, p))
        && (r == Err(Conflict) <==> NameValid(n) && |content| <= 16777216 && IsDirectory(t, p) && Taken(t, p, n, ""))
        && (r.Ok? || r == Err(Unavailable) <==>
              NameValid(n) && |content| <= 16777216 && IsDirectory(t, p) && !Taken(t, p, n, "")
              && |t| < 1000 && Total(t) + |content| <= 134217728)
        && (r == Err(Unavailable) ==> id in t)
        && (r.Ok? ==> p == "root" || (p in t && t[p].directory))
        && (r == Err(Missing) ==> p != "root" && (p !in t || !t[p].directory))
        && (r.Ok? ==> forall x :: x in t && t[x].parent == p ==> t[x].name != n)
        && (r == Err(Conflict) ==> exists x :: x in t && t[x].parent == p && t[x].name == n)
    {
      hide Valid, NameValid, IsDirectory, Taken;
      assert Valid(Of(u));
      if !NameValid(n) { return Err(Invalid); }
      var content := if data.Some? then data.value else [];
      if |content| > MAX_FILE { return Err(Limit); }
      DirectoryIs(Of(u), p);
      if !IsDirectory(Of(u), p) { return Err(Missing); }
      TakenIs(Of(u), p, n, "");
      NoEmptyId(Of(u));
      if Taken(Of(u), p, n, "") { return Err(Conflict); }
      var count, size := Usage(u);
      if count >= MAX_ENTRIES || size + |content| > MAX_TOTAL { return Err(Limit); }
      if id in Of(u) { return Err(Unavailable); }
      InsertKeeps(Of(u), id, Row(p, n, data.None?, content));
      Replace(u, Of(u)[id := Row(p, n, data.None?, content)]);
      return Ok(());
    }

    method Delete(u: nat, id: string) returns (r: Result<(), Error>)
      requires AllValid()
      modifies this
      ensures AllValid() && forall v :: v != u ==> Of(v) == old(Of(v))
      ensures Of(u) == if r.Ok? then old(Of(u)) - {id} else old(Of(u))
      ensures r == Err(Conflict) <==> exists x :: x in old(Of(u)) && old(Of(u))[x].parent == id
      ensures r.Ok? <==> id in old(Of(u)) && forall x :: x in old(Of(u)) ==> old(Of(u))[x].parent != id
      ensures r.Err? ==> r.error == Conflict || r.error == Missing
    {
      hide Valid;
      assert Valid(Of(u));
      if exists x :: x in Of(u) && Of(u)[x].parent == id { return Err(Conflict); }
      if id !in Of(u) { return Err(Missing); }
      DeleteKeeps(Of(u), id);
      Replace(u, Of(u) - {id});
      return Ok(());
    }

    method Read(u: nat, id: string) returns (r: Result<(string, string), Error>)
      ensures r.Ok? <==> id in Of(u) && !Of(u)[id].directory
      ensures r.Ok? ==> r.value == (Of(u)[id].name, Of(u)[id].data)
      ensures r.Err? ==> r.error == Missing
    {
      var t := Of(u);
      if id !in t || t[id].directory { return Err(Missing); }
      return Ok((t[id].name, t[id].data));
    }

    /** Walks from a directory to the root. The step limit never decides. */
    method MeetsAncestor(u: nat, p: string, id: string) returns (r: Result<bool, Error>)
      requires Valid(Of(u)) && IsDirectory(Of(u), p)
      ensures r == Ok(id != ROOT && Below(Of(u), p, id))
    {
      hide Walked, ChainTo, Below, Sizes, Siblings, Total;
      var t := Of(u);
      ghost var rank :| Ranks(t, rank);
      ghost var walk := [p];
      assert Walked(t, walk, p, p, id) by { WalkStarts(t, p, id); }
      ghost var passed: set<string> := {};
      var ancestor := p;
      var steps := 0;
      while ancestor != ROOT
        invariant Walked(t, walk, p, ancestor, id)
        invariant ancestor != ROOT ==> ancestor in t
        invariant passed <= t.Keys && |passed| == steps
        invariant ancestor != ROOT ==> forall x :: x in passed ==> rank[ancestor] < rank[x]
        decreases if ancestor == ROOT then 0 else rank[ancestor] + 1
      {
        SubsetSize(passed, t.Keys);
        if ancestor == id || steps > 1000 {
          WalkMeets(t, walk, p, id);
          return Ok(true);
        }
        steps := steps + 1;
        if ancestor !in t { return Err(Unavailable); }
        passed := passed + {ancestor};
        WalkOn(t, walk, p, ancestor, id);
        assert IsDirectory(t, t[ancestor].parent);
        walk := walk + [t[ancestor].parent];
        ancestor := t[ancestor].parent;
      }
      if id != ROOT { WalkDecides(t, walk, p, id); }
      return Ok(false);
    }

    /** Moves or renames an entry. */
    method Relocate(u: nat, id: string, p: string, n: string) returns (r: Result<(), Error>)
      requires AllValid()
      modifies this
      ensures AllValid() && forall v :: v != u ==> Of(v) == old(Of(v))
      ensures var t := old(Of(u));
        && (r.Ok? ==> id in t && Of(u) == t[id := t[id].(parent := p, name := n)])
        && (r.Err? ==> Of(u) == t && r.error != Limit && r.error != Unavailable)
        && (NameValid(n) && IsDirectory(t, p) && !Taken(t, p, n, id) ==>
              && (r == Err(Invalid) <==> id != ROOT && Below(t, p, id))
              && (r == Err(Missing) <==> id !in t))
        && (r == Err(Conflict) <==> NameValid(n) && IsDirectory(t, p) && Taken(t, p, n, id))
        && (NameValid(n) && !IsDirectory(t, p) ==> r == Err(Missing))
        && (!NameValid(n) ==> r == Err(Invalid))
        && (r.Ok? ==> p == "root" || (p in t && t[p].directory))
        && (r.Ok? ==> forall x :: x in t && x != id && t[x].parent == p ==> t[x].name != n)
        && (r == Err(Conflict) ==> exists x :: x in t && x != id && t[x].parent == p && t[x].name == n)
    {
      hide Tree, Siblings, Sizes, Total, NameValid, IsDirectory, Taken, Below;
      assert Valid(Of(u));
      if !NameValid(n) { return Err(Invalid); }
      DirectoryIs(Of(u), p);
      if !IsDirectory(Of(u), p) { return Err(Missing); }
      TakenIs(Of(u), p, n, id);
      if Taken(Of(u), p, n, id) { return Err(Conflict); }
      var met := MeetsAncestor(u, p, id);
      if met.Err? { return Err(Unavailable); }
      if met.value {
        BelowIsEntry(Of(u), p, id);
        return Err(Invalid);
      }
      if id !in Of(u) { return Err(Missing); }
      RootIsNoEntry(Of(u));
      MoveKeeps(Of(u), id, p, n);
      Replace(u, Of(u)[id := Of(u)[id].(parent := p, name := n)]);
      return Ok(());
    }

    /** One person's rows change; nobody else's do. */
    method Replace(u: nat, t: Table)
      requires AllValid() && Valid(t)
      modifies this
      ensures AllValid() && Of(u) == t && forall v :: v != u ==> Of(v) == old(Of(v))
    {
      hide Valid;
      rows := rows[u := t];
      forall v | v != u ensures Valid(Of(v)) {
        assert old(AllValid()) && Of(v) == old(Of(v)) && Valid(old(Of(v)));
      }
    }
  }

  lemma WalkStarts(t: Table, p: string, id: string)
    ensures Walked(t, [p], p, p, id)
  {
  }

  lemma WalkMeets(t: Table, walk: seq<string>, p: string, id: string)
    requires Walked(t, walk, p, id, id)
    ensures Below(t, p, id)
  {
  }

  /** A listing is never cut short: it stops only at 1001 entries. */
  lemma ListIsComplete(t: Table, p: string)
    requires Valid(t)
    ensures |Children(t, p)| <= 1000
  {
    SubsetSize(Children(t, p), t.Keys);
  }

  function Children(t: Table, p: string): set<string> { set x | x in t && t[x].parent == p }
}
