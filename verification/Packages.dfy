/** App packages: walking the payload, matching it against the signed list, and
    publishing exactly what was verified (app-packages/src/verifier.rs,
    app-packages/src/manifest.rs, app-packages/src/publish.rs). */
module Packages {
  import opened Wrappers

  datatype Entry = Entry(name: string, node: Node)

  datatype Node = File(content: Content) | Dir(entries: seq<Entry>) | Link | Special

  /** What a file holds. A text that parses as one of the two documents carries
      what it parses to. */
  datatype Content =
    | Plain(raw: string)
    | ManifestText(raw: string, manifest: Manifest)
    | EnvelopeText(raw: string, keyId: string, signature: Signature)

  /** `sound` says that the rest of the text passes its own checks: the format
      version, the publisher id and the app description. */
  datatype Manifest = Manifest(publisher: string, app: string, sound: bool, files: seq<Listed>)

  /** Digests and signatures are ideal: equal ones come from equal values. */
  datatype Digest = Sha256(content: Content)

  datatype Signature = Signature(key: nat, over: Content)

  datatype Found = Found(path: string, content: Content)

  datatype Listed = Listed(path: string, size: nat, digest: Digest)

  /** A payload file by the names on its way from the root. */
  datatype Leaf = Leaf(parts: seq<string>, content: Content)

  function Length(c: Content): nat { |c.raw| }

  const MANIFEST_FILE := "package.json"
  const SIGNATURE_FILE := "package.sig.json"
  const MAX_FILES: nat := 2048
  const MAX_FILE_BYTES: nat := 64 * 1024 * 1024
  const MAX_PACKAGE_BYTES: nat := 256 * 1024 * 1024
  const MAX_PATH_LENGTH: nat := 1024
  const U64_MAX: nat := 0xFFFF_FFFF_FFFF_FFFF

  // ---------------------------------------------------------------- paths

  predicate Name(n: string) { n != [] && '/' !in n }

  function Join(parts: seq<string>): string {
    if parts == [] then []
    else if |parts| == 1 then parts[0]
    else Join(parts[..|parts| - 1]) + "/" + parts[|parts| - 1]
  }

  predicate Names(parts: seq<string>) { forall i :: 0 <= i < |parts| ==> Name(parts[i]) }

  /** A joined path splits at its last slash in one way only. */
  lemma LastSlash(a: string, x: string, b: string, y: string)
    requires a + "/" + x == b + "/" + y && '/' !in x && '/' !in y
    ensures a == b && x == y
  {
    var s := a + "/" + x;
    assert s[|a|] == '/' && s[|b|] == '/';
    assert forall k :: |a| < k < |s| ==> s[k] == x[k - |a| - 1];
    assert forall k :: |b| < k < |s| ==> s[k] == y[k - |b| - 1];
    assert |a| == |b|;
    assert a == s[..|a|] && b == s[..|b|] && x == s[|a| + 1..] && y == s[|b| + 1..];
  }

  lemma SlashInside(parts: seq<string>)
    requires |parts| >= 2
    ensures '/' in Join(parts)
  {
    var head := Join(parts[..|parts| - 1]);
    assert Join(parts)[|head|] == '/';
  }

  lemma JoinNotEmpty(parts: seq<string>)
    requires parts != [] && Names(parts)
    ensures Join(parts) != []
  {
    if |parts| >= 2 { SlashInside(parts); }
  }

  /** Different ways through a tree give different joined paths. */
  lemma {:induction false} JoinInjective(a: seq<string>, b: seq<string>)
    requires Names(a) && Names(b) && Join(a) == Join(b)
    ensures a == b
    decreases |a|
  {
    if a == [] || b == [] {
      if a != [] { JoinNotEmpty(a); }
      if b != [] { JoinNotEmpty(b); }
    } else if |a| == 1 || |b| == 1 {
      if |a| >= 2 { SlashInside(a); }
      if |b| >= 2 { SlashInside(b); }
    } else {
      var n, m := |a| - 1, |b| - 1;
      LastSlash(Join(a[..n]), a[n], Join(b[..m]), b[m]);
      JoinInjective(a[..n], b[..m]);
      assert a == a[..n] + [a[n]] && b == b[..m] + [b[m]];
    }
  }

  predicate PathChar(c: char) {
    'a' <= c <= 'z' || 'A' <= c <= 'Z' || '0' <= c <= '9' || c == '-' || c == '_' || c == '.'
  }

  predicate Segment(s: string) {
    s != [] && s != "." && s != ".." && forall c :: c in s ==> PathChar(c)
  }

  function Split(s: string, start: nat, k: nat): seq<string>
    requires start <= k <= |s|
    decreases |s| - k
  {
    if k == |s| then [s[start..]]
    else if s[k] == '/' then [s[start..k]] + Split(s, k + 1, k + 1)
    else Split(s, start, k + 1)
  }

  /** A path the manifest may list. */
  predicate PackagePath(p: string) {
    && p != [] && |p| <= MAX_PATH_LENGTH && p[0] != '/'
    && forall s :: s in Split(p, 0, 0) ==> Segment(s)
  }

  lemma {:induction false} SplitRest(s: string, start: nat, k: nat)
    requires start <= k <= |s| && forall i :: k <= i < |s| ==> s[i] != '/'
    ensures Split(s, start, k) == [s[start..]]
    decreases |s| - k
  {
    if k < |s| { SplitRest(s, start, k + 1); }
  }

  lemma {:induction false} SplitLast(h: string, x: string, start: nat, k: nat)
    requires start <= k <= |h| && '/' !in x
    ensures Split(h + "/" + x, start, k) == Split(h, start, k) + [x]
    decreases |h| - k
  {
    var s := h + "/" + x;
    assert s[..|h|] == h && s[|h|] == '/' && s[|h| + 1..] == x;
    if k == |h| {
      assert forall i :: |h| < i < |s| ==> s[i] == x[i - |h| - 1];
      SplitRest(s, k + 1, k + 1);
      assert s[start..k] == h[start..];
    } else {
      assert s[k] == h[k] && s[start..k] == h[start..k];
      SplitLast(h, x, if h[k] == '/' then k + 1 else start, k + 1);
    }
  }

  /** Splitting a joined path gives back the way through the tree. */
  lemma {:induction false} JoinSplits(parts: seq<string>)
    requires Names(parts) && parts != []
    ensures Split(Join(parts), 0, 0) == parts
  {
    var n := |parts| - 1;
    if n == 0 {
      assert forall i :: 0 <= i < |parts[0]| ==> parts[0][i] in parts[0];
      SplitRest(parts[0], 0, 0);
      assert parts[0][0..] == parts[0];
    } else {
      JoinSplits(parts[..n]);
      SplitLast(Join(parts[..n]), parts[n], 0, 0);
      assert parts == parts[..n] + [parts[n]];
    }
  }

  /** A file can be listed exactly when no name on its way is dot or dot-dot, every
      character is a letter, a digit, a dash, an underscore or a dot, and the whole
      is no longer than 1024. */
  lemma ListablePaths(parts: seq<string>)
    requires Names(parts) && parts != []
    ensures PackagePath(Join(parts)) <==>
      && |Join(parts)| <= 1024
      && forall i :: 0 <= i < |parts| ==>
        && parts[i] != "." && parts[i] != ".."
        && forall c :: c in parts[i] ==>
          '0' <= c <= '9' || 'A' <= c <= 'Z' || 'a' <= c <= 'z' || c == '-' || c == '_' || c == '.'
  {
    hide Split, Join;
    JoinSplits(parts);
    JoinNotEmpty(parts);
    JoinStarts(parts);
    forall i | 0 <= i < |parts| ensures parts[i] in parts && parts[i] != [] { assert Name(parts[i]); }
  }

  lemma {:induction false} JoinStarts(parts: seq<string>)
    requires Names(parts) && parts != []
    ensures Join(parts) != [] && Join(parts)[0] == parts[0][0]
  {
    assert Name(parts[0]);
    if |parts| > 1 { JoinStarts(parts[..|parts| - 1]); }
  }

  // ---------------------------------------------------------------- the tree

  /** What a filesystem guarantees of a directory. */
  predicate WellNamed(entries: seq<Entry>) {
    && (forall i :: 0 <= i < |entries| ==> Name(entries[i].name))
    && (forall i, j :: 0 <= i < j < |entries| ==> entries[i].name != entries[j].name)
    && forall i :: 0 <= i < |entries| && entries[i].node.Dir? ==> WellNamed(entries[i].node.entries)
  }

  /** Nothing but files and directories. */
  predicate Regular(entries: seq<Entry>) {
    forall i :: 0 <= i < |entries| ==> RegularNode(entries[i].node)
  }

  predicate RegularNode(n: Node) {
    n.File? || (n.Dir? && Regular(n.entries))
  }

  predicate Document(parts: seq<string>) {
    parts == [MANIFEST_FILE] || parts == [SIGNATURE_FILE]
  }

  /** The payload in the order of the walk: every file but the two documents at
      the root. */
  function Leaves(entries: seq<Entry>, prefix: seq<string>): seq<Leaf> {
    if entries == [] then [] else LeavesOf(entries[0], prefix) + Leaves(entries[1..], prefix)
  }

  function LeavesOf(e: Entry, prefix: seq<string>): seq<Leaf> {
    var parts := prefix + [e.name];
    match e.node
    case File(content) => if Document(parts) then [] else [Leaf(parts, content)]
    case Dir(inner) => Leaves(inner, parts)
    case _ => []
  }

  function FoundAs(leaves: seq<Leaf>): (fs: seq<Found>)
    ensures |fs| == |leaves|
    ensures forall i :: 0 <= i < |fs| ==> fs[i] == Found(Join(leaves[i].parts), leaves[i].content)
  {
    seq(|leaves|, i requires 0 <= i < |leaves| => Found(Join(leaves[i].parts), leaves[i].content))
  }

  /** Every leaf lies under its prefix, and no two have the same way. */
  lemma {:induction false} LeavesUnder(entries: seq<Entry>, prefix: seq<string>)
    requires WellNamed(entries) && Names(prefix)
    ensures forall i :: 0 <= i < |Leaves(entries, prefix)| ==>
      var p := Leaves(entries, prefix)[i].parts;
      prefix < p && Names(p) && exists k :: 0 <= k < |entries| && entries[k].name == p[|prefix|]
    decreases entries
  {
    if entries != [] {
      var e := entries[0];
      var parts := prefix + [e.name];
      if e.node.Dir? { LeavesUnder(e.node.entries, parts); }
      assert WellNamed(entries[1..]);
      LeavesUnder(entries[1..], prefix);
      var all := Leaves(entries, prefix);
      forall i | 0 <= i < |all|
        ensures prefix < all[i].parts && Names(all[i].parts)
        ensures exists k :: 0 <= k < |entries| && entries[k].name == all[i].parts[|prefix|]
      {
        var n := |LeavesOf(e, prefix)|;
        if i < n {
          assert all[i] == LeavesOf(e, prefix)[i];
          assert parts <= all[i].parts;
          assert entries[0].name == all[i].parts[|prefix|];
        } else {
          assert all[i] == Leaves(entries[1..], prefix)[i - n];
          var k :| 0 <= k < |entries[1..]| && entries[1..][k].name == all[i].parts[|prefix|];
          assert entries[k + 1].name == all[i].parts[|prefix|];
        }
      }
    }
  }

  lemma {:induction false} LeavesDistinct(entries: seq<Entry>, prefix: seq<string>, i: nat, j: nat)
    requires WellNamed(entries) && Names(prefix) && i < j < |Leaves(entries, prefix)|
    ensures Leaves(entries, prefix)[i].parts != Leaves(entries, prefix)[j].parts
    decreases entries
  {
    var e := entries[0];
    var rest := entries[1..];
    assert WellNamed(rest);
    var n := |LeavesOf(e, prefix)|;
    var all := Leaves(entries, prefix);
    if i >= n {
      LeavesDistinct(rest, prefix, i - n, j - n);
      assert all[i] == Leaves(rest, prefix)[i - n] && all[j] == Leaves(rest, prefix)[j - n];
    } else if j < n {
      assert e.node.Dir?;
      LeavesDistinct(e.node.entries, prefix + [e.name], i, j);
    } else {
      assert WellNamed([e]);
      LeavesUnder([e], prefix);
      assert Leaves([e], prefix) == LeavesOf(e, prefix);
      LeavesUnder(rest, prefix);
      assert all[i] == Leaves([e], prefix)[i] && all[j] == Leaves(rest, prefix)[j - n];
      assert all[i].parts[|prefix|] == e.name;
    }
  }

  /** No two payload files have the same joined path. */
  lemma PathsDistinct(entries: seq<Entry>, i: nat, j: nat)
    requires WellNamed(entries) && i < j < |Leaves(entries, [])|
    ensures FoundAs(Leaves(entries, []))[i].path != FoundAs(Leaves(entries, []))[j].path
  {
    LeavesUnder(entries, []);
    LeavesDistinct(entries, [], i, j);
    var a, b := Leaves(entries, [])[i].parts, Leaves(entries, [])[j].parts;
    if Join(a) == Join(b) { JoinInjective(a, b); }
  }

  // ---------------------------------------------------------------- the walk

  lemma LeavesSplit(entries: seq<Entry>, k: nat, prefix: seq<string>)
    requires k < |entries|
    ensures Leaves(entries[..k + 1], prefix) == Leaves(entries[..k], prefix) + LeavesOf(entries[k], prefix)
  {
    LeavesAppend(entries[..k], [entries[k]], prefix);
    assert entries[..k + 1] == entries[..k] + [entries[k]];
    assert Leaves([entries[k]], prefix) == LeavesOf(entries[k], prefix);
  }

  lemma {:induction false} LeavesAppend(a: seq<Entry>, b: seq<Entry>, prefix: seq<string>)
    ensures Leaves(a + b, prefix) == Leaves(a, prefix) + Leaves(b, prefix)
    decreases |a|
  {
    if a == [] {
      assert a + b == b;
    } else {
      assert (a + b)[0] == a[0] && (a + b)[1..] == a[1..] + b;
      LeavesAppend(a[1..], b, prefix);
    }
  }

  function Relative(prefix: string, name: string): string {
    if prefix == [] then name else prefix + "/" + name
  }

  lemma RelativeJoins(parts: seq<string>, name: string)
    requires Names(parts)
    ensures Relative(Join(parts), name) == Join(parts + [name]) && (Join(parts) == [] <==> parts == [])
  {
    if parts != [] { JoinNotEmpty(parts); }
    assert (parts + [name])[..|parts|] == parts;
  }

  lemma FoundMore(a: seq<Leaf>, b: seq<Leaf>)
    ensures FoundAs(a + b) == FoundAs(a) + FoundAs(b)
  {
  }

  /** The one entry's share of the walk. */
  lemma FoundEntry(entries: seq<Entry>, k: nat, parts: seq<string>)
    requires k < |entries|
    ensures FoundAs(Leaves(entries[..k + 1], parts)) 
         == FoundAs(Leaves(entries[..k], parts)) + FoundAs(LeavesOf(entries[k], parts))
    ensures |Leaves(entries[..k + 1], parts)| <= |Leaves(entries, parts)|
  {
    hide Leaves, LeavesOf, FoundAs;
    LeavesSplit(entries, k, parts);
    LeavesSplitRest(entries, k + 1, parts);
    FoundMore(Leaves(entries[..k], parts), LeavesOf(entries[k], parts));
  }

  lemma FoundFile(e: Entry, parts: seq<string>)
    requires e.node.File? && Names(parts)
    ensures FoundAs(LeavesOf(e, parts))
      == if parts == [] && (e.name == MANIFEST_FILE || e.name == SIGNATURE_FILE) then []
        else [Found(Relative(Join(parts), e.name), e.node.content)]
  {
    RelativeJoins(parts, e.name);
  }

  lemma FoundDir(e: Entry, parts: seq<string>)
    requires e.node.Dir?
    ensures LeavesOf(e, parts) == Leaves(e.node.entries, parts + [e.name])
  {
  }

  lemma AllRegular(entries: seq<Entry>)
    ensures Regular(entries) <==> forall i :: 0 <= i < |entries| ==> RegularNode(entries[i].node)
  {
  }

  lemma NamedInside(entries: seq<Entry>, k: nat, parts: seq<string>)
    requires WellNamed(entries) && k < |entries| && Names(parts)
    ensures Names(parts + [entries[k].name])
    ensures entries[k].node.Dir? ==> WellNamed(entries[k].node.entries)
  {
  }

  /** Walks a directory, adding its payload to what was found before. The names
      on the way down are the ghost of the path prefix. */
  method CollectPayloadFiles(entries: seq<Entry>, prefix: string, ghost parts: seq<string>, found: seq<Found>)
    returns (r: Option<seq<Found>>)
    requires WellNamed(entries) && Names(parts) && prefix == Join(parts) && |found| <= MAX_FILES
    ensures r.Some? <==> Regular(entries) && |found| + |Leaves(entries, parts)| <= MAX_FILES
    ensures r.Some? ==> r.value == found + FoundAs(Leaves(entries, parts))
    decreases entries
  {
    hide Leaves, LeavesOf, FoundAs, Regular, WellNamed, Join, Names, Relative, MANIFEST_FILE, SIGNATURE_FILE;
    if |found| > MAX_FILES { return None; }
    AllRegular(entries);
    var all := found;
    assert FoundAs(Leaves(entries[..0], parts)) == [] by { NoLeaves(entries[..0], parts); }
    for k := 0 to |entries|
      invariant forall i :: 0 <= i < k ==> RegularNode(entries[i].node)
      invariant all == found + FoundAs(Leaves(entries[..k], parts)) && |all| <= MAX_FILES
    {
      var e := entries[k];
      NamedInside(entries, k, parts);
      FoundEntry(entries, k, parts);
      RelativeJoins(parts, e.name);
      match e.node {
        case Link => return None;
        case Special => return None;
        case Dir(inner) =>
          FoundDir(e, parts);
          var more := CollectPayloadFiles(inner, Relative(prefix, e.name), parts + [e.name], all);
          if more.None? { return None; }
          all := more.value;
        case File(content) =>
          FoundFile(e, parts);
          if prefix == [] && (e.name == MANIFEST_FILE || e.name == SIGNATURE_FILE) { continue; }
          if |all| >= MAX_FILES { return None; }
          all := all + [Found(Relative(prefix, e.name), content)];
      }
    }
    assert entries[..|entries|] == entries;
    return Some(all);
  }

  lemma NoLeaves(entries: seq<Entry>, parts: seq<string>)
    requires entries == []
    ensures FoundAs(Leaves(entries, parts)) == []
  {
  }

  lemma LeavesSplitRest(entries: seq<Entry>, k: nat, prefix: seq<string>)
    requires k <= |entries|
    ensures Leaves(entries, prefix) == Leaves(entries[..k], prefix) + Leaves(entries[k..], prefix)
  {
    LeavesAppend(entries[..k], entries[k..], prefix);
    assert entries == entries[..k] + entries[k..];
  }

  // ---------------------------------------------------------------- the signed list

  function Line(f: Found): Listed { Listed(f.path, Length(f.content), Sha256(f.content)) }

  function Lines(found: seq<Found>): (ls: seq<Listed>)
    ensures |ls| == |found| && forall i :: 0 <= i < |ls| ==> ls[i] == Line(found[i])
  {
    seq(|found|, i requires 0 <= i < |found| => Line(found[i]))
  }

  predicate PathsOnce(listed: seq<Listed>) {
    forall i, j :: 0 <= i < j < |listed| ==> listed[i].path != listed[j].path
  }

  /** Payload and list correspond, by path, size and digest. */
  ghost predicate Exact(found: seq<Found>, listed: seq<Listed>) {
    forall l :: l in Lines(found) <==> l in listed
  }

  function Size(listed: seq<Listed>): nat {
    if listed == [] then 0 else Size(listed[..|listed| - 1]) + listed[|listed| - 1].size
  }

  predicate Fits(listed: seq<Listed>) {
    && |listed| <= MAX_FILES && PathsOnce(listed) && Size(listed) <= MAX_PACKAGE_BYTES
    && forall i :: 0 <= i < |listed| ==> listed[i].size <= MAX_FILE_BYTES && PackagePath(listed[i].path)
  }

  function SaturatingAdd(a: nat, b: nat): nat { if a + b > U64_MAX then U64_MAX else a + b }

  lemma {:induction false} SizeGrows(listed: seq<Listed>, k: nat)
    requires k <= |listed|
    ensures Size(listed[..k]) <= Size(listed)
  {
    if k < |listed| {
      SizeGrows(listed[..|listed| - 1], k);
      assert listed[..|listed| - 1][..k] == listed[..k];
    } else {
      assert listed[..k] == listed;
    }
  }

  /** The manifest's file loop. The running total never saturates, so the limit
      is checked against the true sum. */
  method CheckFiles(listed: seq<Listed>) returns (ok: bool)
    ensures ok <==> Fits(listed)
  {
    hide PackagePath;
    if |listed| > MAX_FILES { return false; }
    var paths: set<string> := {};
    var total := 0;
    for k := 0 to |listed|
      invariant total == Size(listed[..k]) <= MAX_PACKAGE_BYTES
      invariant paths == set i | 0 <= i < k :: listed[i].path
      invariant forall i, j :: 0 <= i < j < k ==> listed[i].path != listed[j].path
      invariant forall i :: 0 <= i < k ==> listed[i].size <= MAX_FILE_BYTES && PackagePath(listed[i].path)
    {
      var file := listed[k];
      if !PackagePath(file.path) { return false; }
      if file.size > MAX_FILE_BYTES { return false; }
      assert listed[..k + 1][..k] == listed[..k];
      SizeGrows(listed, k + 1);
      total := SaturatingAdd(total, file.size);
      if total > MAX_PACKAGE_BYTES { return false; }
      if file.path in paths { return false; }
      paths := paths + {file.path};
    }
    assert listed[..|listed|] == listed;
    return true;
  }

  /** Accepts a tree exactly when its payload is the list: nothing missing,
      nothing extra, nothing changed, no link or special file anywhere. */
  method VerifyPayload(entries: seq<Entry>, listed: seq<Listed>) returns (ok: bool)
    requires WellNamed(entries) && PathsOnce(listed)
    ensures ok <==>
      Regular(entries) && |Leaves(entries, [])| <= MAX_FILES && Exact(FoundAs(Leaves(entries, [])), listed)
  {
    hide Leaves, FoundAs, Regular, WellNamed, Exact;
    var walked := CollectPayloadFiles(entries, "", [], []);
    if walked.None? { return false; }
    var found := walked.value;
    assert found == FoundAs(Leaves(entries, []));
    forall i, j | 0 <= i < j < |found| ensures found[i].path != found[j].path { PathsDistinct(entries, i, j); }
    ok := Matches(found, listed);
  }

  /** Strikes each file found off the list. */
  method Matches(found: seq<Found>, listed: seq<Listed>) returns (ok: bool)
    requires PathsOnce(listed) && DifferentPaths(found)
    ensures ok <==> Exact(found, listed)
  {
    hide Striking, Exact, Line;
    var left := ByPath(listed);
    StrikingStarts(found, listed);
    for k := 0 to |found|
      invariant Striking(found, listed, k, left)
    {
      var f := found[k];
      if f.path !in left || left[f.path] != Line(f) {
        StrikingFails(found, listed, k, left);
        return false;
      }
      StrikingGoesOn(found, listed, k, left);
      left := left - {f.path};
    }
    StrikingEnds(found, listed, left);
    return left == map[];
  }

  predicate DifferentPaths(found: seq<Found>) {
    forall i, j :: 0 <= i < j < |found| ==> found[i].path != found[j].path
  }

  /** The first files are listed and struck off, and the rest of the list is
      left. */
  ghost predicate Striking(found: seq<Found>, listed: seq<Listed>, k: nat, left: map<string, Listed>) {
    && (forall i :: 0 <= i < k && i < |found| ==> Line(found[i]) in listed && found[i].path !in left)
    && (forall p :: p in left ==> left[p] in listed && left[p].path == p)
    && (forall l :: l in listed ==>
      (l.path in left && left[l.path] == l) || exists i :: 0 <= i < k && i < |found| && l == Line(found[i]))
  }

  lemma StrikingStarts(found: seq<Found>, listed: seq<Listed>)
    requires PathsOnce(listed)
    ensures Striking(found, listed, 0, ByPath(listed))
  {
  }

  lemma StrikingGoesOn(found: seq<Found>, listed: seq<Listed>, k: nat, left: map<string, Listed>)
    requires Striking(found, listed, k, left) && k < |found| && found[k].path in left
      && left[found[k].path] == Line(found[k])
    ensures Striking(found, listed, k + 1, left - {found[k].path})
  {
    var after := left - {found[k].path};
    forall l | l in listed
      ensures (l.path in after && after[l.path] == l)
        || exists i :: 0 <= i < k + 1 && i < |found| && l == Line(found[i])
    {
      if l.path == found[k].path && l.path in left && left[l.path] == l {
        assert l == Line(found[k]);
      }
    }
  }

  lemma StrikingFails(found: seq<Found>, listed: seq<Listed>, k: nat, left: map<string, Listed>)
    requires Striking(found, listed, k, left) && k < |found| && DifferentPaths(found)
    requires found[k].path !in left || left[found[k].path] != Line(found[k])
    ensures !Exact(found, listed)
  {
    var l := Line(found[k]);
    assert Lines(found)[k] == l;
    assert l in Lines(found);
    assert forall i :: 0 <= i < k ==> found[i].path != found[k].path;
    assert l !in listed;
  }

  lemma StrikingEnds(found: seq<Found>, listed: seq<Listed>, left: map<string, Listed>)
    requires Striking(found, listed, |found|, left)
    ensures Exact(found, listed) <==> left == map[]
  {
    if left != map[] {
      var p :| p in left;
      assert left[p] in listed;
      assert forall i :: 0 <= i < |found| ==> Lines(found)[i] != left[p];
    } else {
      forall l ensures l in Lines(found) <==> l in listed {
        if l in listed {
          var i :| 0 <= i < |found| && l == Line(found[i]);
          assert Lines(found)[i] == l;
        }
      }
    }
  }

  function ByPath(listed: seq<Listed>): (m: map<string, Listed>)
    requires PathsOnce(listed)
    ensures forall j :: 0 <= j < |listed| ==> listed[j].path in m && m[listed[j].path] == listed[j]
    ensures forall p :: p in m ==> exists j :: 0 <= j < |listed| && listed[j].path == p
  {
    map j | 0 <= j < |listed| :: listed[j].path := listed[j]
  }

  /** Payloads with the same lines are the same. */
  lemma SamePayload(a: seq<Found>, b: seq<Found>)
    requires forall l :: l in Lines(a) <==> l in Lines(b)
    ensures forall f :: f in a <==> f in b
  {
    forall f ensures f in a ==> f in b { LineInside(a, b, f); }
    forall f ensures f in b ==> f in a { LineInside(b, a, f); }
  }

  lemma LineInside(a: seq<Found>, b: seq<Found>, f: Found)
    requires forall l :: l in Lines(a) ==> l in Lines(b)
    ensures f in a ==> f in b
  {
    if f in a {
      var i :| 0 <= i < |a| && a[i] == f;
      assert Lines(a)[i] in Lines(a);
      var k :| 0 <= k < |Lines(b)| && Lines(b)[k] == Line(f);
      assert b[k] == f;
    }
  }

  // ---------------------------------------------------------------- publishing

  datatype Outcome = Published(files: nat, bytes: nat) | AlreadyPublished | Failed | Interrupted

  type Assets = map<string, Content>

  /** Exactly the listed files, each with the listed size and digest. */
  ghost predicate Complete(assets: Assets, files: seq<Listed>) {
    && (forall p :: p in assets <==> exists i :: 0 <= i < |files| && files[i].path == p)
    && forall i :: 0 <= i < |files| && files[i].path in assets ==>
      Length(assets[files[i].path]) == files[i].size && Sha256(assets[files[i].path]) == files[i].digest
  }

  class Publisher {
    var targets: map<nat, Assets>
    var staging: map<nat, Assets>
    /** No crash comes. */
    const steady: bool

    constructor (steady: bool)
      ensures targets == staging == map[] && this.steady == steady
    {
      targets, staging, this.steady := map[], map[], steady;
    }

    /** Copies the payload into a private directory, checking each file again as
        it is read, and renames the directory into place. What is read may have
        been swapped since verification. */
    method Publish(installation: nat, files: seq<Listed>, private: nat) returns (out: Outcome)
      requires Fits(files) && private !in staging
      modifies this
      ensures forall i :: i in old(targets) ==> i in targets && targets[i] == old(targets)[i]
      ensures forall i :: i in targets && i !in old(targets) ==> i == installation && Complete(targets[i], files)
      ensures installation in old(targets) ==> out == AlreadyPublished && staging == old(staging)
      ensures out.Published? ==> installation in targets && installation !in old(targets) && staging == old(staging)
      ensures out.Published? ==> out == Published(|files|, Size(files))
      ensures out.Failed? ==> targets == old(targets) && staging == old(staging)
      ensures steady ==> !out.Interrupted?
    {
      hide Fits, Complete;
      if installation in targets { return AlreadyPublished; }
      if !steady { if * { return Interrupted; } }
      staging := staging[private := map[]];
      var total := 0;
      assert Complete(map[], files[..0]) by { NothingYet(files); }
      for k := 0 to |files|
        invariant targets == old(targets) && private in staging && staging - {private} == old(staging)
        invariant Complete(staging[private], files[..k])
        invariant total == Size(files[..k])
      {
        var content: Content := *;
        if !steady { if * { return Interrupted; } }
        if Length(content) != files[k].size || Sha256(content) != files[k].digest {
          if !steady { if * { return Interrupted; } }
          staging := staging - {private};
          return Failed;
        }
        OneMore(staging[private], files, k, content);
        staging := staging[private := staging[private][files[k].path := content]];
        total := SaturatingAdd(total, Length(content));
      }
      assert files[..|files|] == files;
      if !steady { if * { return Interrupted; } }
      targets, staging := targets[installation := staging[private]], staging - {private};
      if !steady { if * { return Interrupted; } }
      return Published(|files|, total);
    }
  }

  lemma NothingYet(files: seq<Listed>)
    ensures Complete(map[], files[..0])
  {
  }

  lemma OneMore(assets: Assets, files: seq<Listed>, k: nat, content: Content)
    requires Fits(files) && k < |files| && Complete(assets, files[..k])
    requires Length(content) == files[k].size && Sha256(content) == files[k].digest
    ensures Complete(assets[files[k].path := content], files[..k + 1])
    ensures SaturatingAdd(Size(files[..k]), Length(content)) == Size(files[..k + 1])
  {
    hide PackagePath;
    var after := assets[files[k].path := content];
    var more := files[..k + 1];
    assert more[..k] == files[..k];
    SizeGrows(files, k + 1);
    forall p ensures p in after <==> exists i :: 0 <= i < |more| && more[i].path == p {
      if p in assets {
        var i :| 0 <= i < |files[..k]| && files[..k][i].path == p;
        assert more[i].path == p;
      }
      if p == files[k].path { assert more[k].path == p; }
    }
    forall i | 0 <= i < |more| && more[i].path in after
      ensures Length(after[more[i].path]) == more[i].size && Sha256(after[more[i].path]) == more[i].digest
    {
      if i < k { assert files[..k][i] == more[i]; }
    }
  }

  /** A published directory holds, byte for byte, the payload that was verified. */
  lemma PublishedIsVerified(assets: Assets, found: seq<Found>, files: seq<Listed>)
    requires Complete(assets, files) && Exact(found, files) && DifferentPaths(found)
    ensures forall i :: 0 <= i < |found| ==> found[i].path in assets && assets[found[i].path] == found[i].content
    ensures forall p :: p in assets ==> exists i :: 0 <= i < |found| && found[i].path == p
  {
    forall i | 0 <= i < |found| ensures found[i].path in assets && assets[found[i].path] == found[i].content {
      assert Lines(found)[i] in Lines(found);
      var j :| 0 <= j < |files| && files[j] == Line(found[i]);
      assert files[j].path == found[i].path;
    }
    forall p | p in assets ensures exists i :: 0 <= i < |found| && found[i].path == p {
      var j :| 0 <= j < |files| && files[j].path == p;
      assert files[j] in files;
      var i :| 0 <= i < |Lines(found)| && Lines(found)[i] == files[j];
      assert found[i].path == p;
    }
  }
}
