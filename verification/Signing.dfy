/** Signing a package root and verifying it (app-packages/src/sign.rs,
    app-packages/src/verifier.rs, app-packages/src/signature.rs). */
module Signing {
  import opened Wrappers
  import opened Packages

  datatype Signer = Signer(keyId: string, key: nat)

  /** The trusted key for a publisher and a key id. */
  type TrustStore = map<(string, string), nat>

  const MAX_MANIFEST_BYTES: nat := 1024 * 1024
  const MAX_SIGNATURE_BYTES: nat := 4 * 1024
  const MAX_KEY_ID_LENGTH: nat := 64

  // ---------------------------------------------------------------- the order of the list

  /** Strictly before, character by character. */
  predicate Before(a: string, b: string) {
    b != [] && (a == [] || a[0] < b[0] || (a[0] == b[0] && Before(a[1..], b[1..])))
  }

  lemma {:induction false} BeforeIsTotal(a: string, b: string)
    ensures !(Before(a, b) && Before(b, a)) && (a != b ==> Before(a, b) || Before(b, a))
  {
    if a != [] && b != [] {
      BeforeIsTotal(a[1..], b[1..]);
      if a[0] == b[0] { assert a == [a[0]] + a[1..] && b == [b[0]] + b[1..]; }
    }
  }

  lemma {:induction false} BeforeChains(a: string, b: string, c: string)
    requires Before(a, b) && Before(b, c)
    ensures Before(a, c)
  {
    if a != [] && a[0] == b[0] == c[0] { BeforeChains(a[1..], b[1..], c[1..]); }
  }

  /** The first place where the two differ decides, or one ends there. */
  ghost predicate Earlier(a: string, b: string, k: nat) {
    && k <= |a| && k <= |b| && a[..k] == b[..k]
    && ((k == |a| < |b|) || (k < |a| && k < |b| && a[k] < b[k]))
  }

  lemma {:induction false} BeforeMeans(a: string, b: string)
    ensures Before(a, b) <==> exists k: nat :: Earlier(a, b, k)
  {
    if a == [] || b == [] || a[0] != b[0] {
      if Before(a, b) { assert Earlier(a, b, 0); }
      if k: nat :| Earlier(a, b, k) && k > 0 { assert a[..k][0] == b[..k][0]; }
    } else {
      BeforeMeans(a[1..], b[1..]);
      if k: nat :| Earlier(a[1..], b[1..], k) {
        assert a[..k + 1] == [a[0]] + a[1..][..k] && b[..k + 1] == [b[0]] + b[1..][..k];
        assert Earlier(a, b, k + 1);
      }
      if k: nat :| Earlier(a, b, k) {
        assert k > 0;
        assert a[1..][..k - 1] == a[..k][1..] && b[1..][..k - 1] == b[..k][1..];
        assert Earlier(a[1..], b[1..], k - 1);
      }
    }
  }

  predicate Ascending(s: seq<Found>) {
    forall i, j :: 0 <= i < j < |s| ==> Before(s[i].path, s[j].path)
  }

  function Insert(f: Found, s: seq<Found>): seq<Found> {
    if s == [] || Before(f.path, s[0].path) then [f] + s else [s[0]] + Insert(f, s[1..])
  }

  function SortedByPath(s: seq<Found>): seq<Found> {
    if s == [] then [] else Insert(s[0], SortedByPath(s[1..]))
  }

  lemma {:induction false} InsertHolds(f: Found, s: seq<Found>)
    ensures forall g :: g in Insert(f, s) <==> g == f || g in s
    ensures Size(Lines(Insert(f, s))) == Line(f).size + Size(Lines(s)) && |Insert(f, s)| == |s| + 1
  {
    hide Size, Lines, Line;
    if s == [] || Before(f.path, s[0].path) {
      SizeOfFirst(f, s);
    } else {
      InsertHolds(f, s[1..]);
      SizeOfFirst(s[0], Insert(f, s[1..]));
      SizeOfFirst(s[0], s[1..]);
      assert s == [s[0]] + s[1..];
    }
  }

  lemma {:induction false} InsertAscends(f: Found, s: seq<Found>)
    requires Ascending(s) && forall g :: g in s ==> g.path != f.path
    ensures Ascending(Insert(f, s))
  {
    if s == [] {
    } else if Before(f.path, s[0].path) {
      forall i | 0 <= i < |s| ensures Before(f.path, s[i].path) {
        if i > 0 { BeforeChains(f.path, s[0].path, s[i].path); }
      }
    } else {
      InsertAscends(f, s[1..]);
      InsertHolds(f, s[1..]);
      BeforeIsTotal(f.path, s[0].path);
      forall g | g in Insert(f, s[1..]) ensures Before(s[0].path, g.path) { }
    }
  }

  lemma {:induction false} SizeOfFirst(f: Found, s: seq<Found>)
    ensures Size(Lines([f] + s)) == Line(f).size + Size(Lines(s))
    decreases |s|
  {
    var all := [f] + s;
    if s == [] {
      assert Lines(all)[..0] == [];
    } else {
      var n := |s| - 1;
      SizeOfFirst(f, s[..n]);
      assert Lines(all)[..n + 1] == Lines([f] + s[..n]);
      assert Lines(s)[..n] == Lines(s[..n]);
    }
  }

  lemma {:induction false} SortingHolds(s: seq<Found>)
    ensures forall f :: f in SortedByPath(s) <==> f in s
    ensures Size(Lines(SortedByPath(s))) == Size(Lines(s)) && |SortedByPath(s)| == |s|
  {
    hide Size, Lines, Line, Insert;
    if s != [] {
      SortingHolds(s[1..]);
      InsertHolds(s[0], SortedByPath(s[1..]));
      SizeOfFirst(s[0], s[1..]);
      assert s == [s[0]] + s[1..];
    }
  }

  lemma {:induction false} SortingAscends(s: seq<Found>)
    requires DifferentPaths(s)
    ensures Ascending(SortedByPath(s))
  {
    hide Insert;
    if s != [] {
      SortingAscends(s[1..]);
      SortingHolds(s[1..]);
      forall g | g in s[1..] ensures g.path != s[0].path {
        var i :| 0 <= i < |s[1..]| && s[1..][i] == g;
        assert s[i + 1] == g;
      }
      InsertAscends(s[0], SortedByPath(s[1..]));
    }
  }

  /** There is one ascending list of a given set of files. */
  lemma {:induction false} AscendingOnce(a: seq<Found>, b: seq<Found>)
    requires Ascending(a) && Ascending(b) && forall f :: f in a <==> f in b
    ensures a == b
    decreases |a|
  {
    assert (a != [] ==> a[0] in a) && (b != [] ==> b[0] in b);
    if a != [] && b != [] {
      assert a[0] in b && b[0] in a;
      BeforeIsTotal(a[0].path, b[0].path);
      assert a[0] == b[0];
      forall f ensures f in a[1..] <==> f in b[1..] {
        TailHolds(a, f);
        TailHolds(b, f);
      }
      AscendingOnce(a[1..], b[1..]);
      assert a == [a[0]] + a[1..] && b == [b[0]] + b[1..];
    }
  }

  lemma TailHolds(a: seq<Found>, f: Found)
    requires a != [] && Ascending(a)
    ensures f in a[1..] <==> f in a && f != a[0]
  {
    BeforeIsTotal(a[0].path, a[0].path);
    assert a == [a[0]] + a[1..];
  }

  // ---------------------------------------------------------------- documents

  predicate IsDocument(name: string) { name == MANIFEST_FILE || name == SIGNATURE_FILE }

  function Without(entries: seq<Entry>, name: string): seq<Entry> {
    if entries == [] then []
    else (if entries[0].name == name then [] else [entries[0]]) + Without(entries[1..], name)
  }

  /** What a rename over the name leaves. */
  function Put(entries: seq<Entry>, name: string, content: Content): seq<Entry> {
    Without(entries, name) + [Entry(name, File(content))]
  }

  /** Renaming a file over a directory fails. */
  predicate Writable(entries: seq<Entry>, name: string) {
    forall i :: 0 <= i < |entries| && entries[i].name == name ==> !entries[i].node.Dir?
  }

  /** The plain file of that name in the root. */
  function DocumentAt(entries: seq<Entry>, name: string): Option<Content> {
    if entries == [] then None
    else if entries[0].name != name then DocumentAt(entries[1..], name)
    else if entries[0].node.File? then Some(entries[0].node.content) else None
  }

  lemma {:induction false} WithoutHolds(entries: seq<Entry>, name: string)
    ensures forall e :: e in Without(entries, name) <==> e in entries && e.name != name
    ensures WellNamed(entries) ==> WellNamed(Without(entries, name))
  {
    if entries != [] {
      WithoutHolds(entries[1..], name);
      assert entries == [entries[0]] + entries[1..];
      var rest := Without(entries[1..], name);
      if WellNamed(entries) {
        assert WellNamed(entries[1..]);
        forall i | 0 <= i < |rest| ensures rest[i].name != entries[0].name {
          assert rest[i] in entries[1..];
          var k :| 0 <= k < |entries[1..]| && entries[1..][k] == rest[i];
          assert entries[k + 1] == rest[i];
        }
      }
    }
  }

  lemma {:induction false} PayloadWithout(entries: seq<Entry>, name: string)
    requires IsDocument(name) && Writable(entries, name)
    ensures Leaves(Without(entries, name), []) == Leaves(entries, [])
  {
    if entries != [] {
      PayloadWithout(entries[1..], name);
      var head := if entries[0].name == name then [] else [entries[0]];
      LeavesAppend(head, Without(entries[1..], name), []);
      assert Leaves([entries[0]], []) == LeavesOf(entries[0], []);
      if entries[0].name == name { assert Document([] + [name]); }
    }
  }

  lemma PutStaysRegular(entries: seq<Entry>, name: string, content: Content)
    requires WellNamed(entries) && Regular(entries) && IsDocument(name)
    ensures WellNamed(Put(entries, name, content)) && Regular(Put(entries, name, content))
  {
    var rest := Without(entries, name);
    WithoutHolds(entries, name);
    assert Name(name);
    forall i | 0 <= i < |rest| ensures rest[i].name != name && RegularNode(rest[i].node) {
      assert rest[i] in entries;
    }
  }

  /** Writing a document leaves the payload alone. */
  lemma PutKeepsPayload(entries: seq<Entry>, name: string, content: Content)
    requires IsDocument(name) && Writable(entries, name)
    ensures Leaves(Put(entries, name, content), []) == Leaves(entries, [])
  {
    hide Leaves;
    var doc := Entry(name, File(content));
    PayloadWithout(entries, name);
    LeavesAppend(Without(entries, name), [doc], []);
    DocumentIsNoPayload(doc);
  }

  lemma DocumentIsNoPayload(doc: Entry)
    requires IsDocument(doc.name) && doc.node.File?
    ensures Leaves([doc], []) == []
  {
    assert Document([] + [doc.name]) && LeavesOf(doc, []) == [] && [doc][1..] == [];
  }

  lemma {:induction false} PutIsFound(entries: seq<Entry>, name: string, content: Content, other: string)
    ensures DocumentAt(Put(entries, name, content), name) == Some(content)
    ensures other != name ==> DocumentAt(Put(entries, name, content), other) == DocumentAt(entries, other)
  {
    var doc := Entry(name, File(content));
    if entries == [] {
      assert Put(entries, name, content) == [doc] && [doc][1..] == [];
    } else {
      PutIsFound(entries[1..], name, content, other);
      var here, later := Put(entries, name, content), Put(entries[1..], name, content);
      if entries[0].name == name {
        assert here == later;
      } else {
        assert here == [entries[0]] + later;
        assert here[1..] == later;
      }
    }
  }

  lemma PutStaysWritable(entries: seq<Entry>, name: string, content: Content, other: string)
    requires other != name
    ensures Writable(Put(entries, name, content), other) <==> Writable(entries, other)
  {
    WithoutHolds(entries, name);
    var here := Put(entries, name, content);
    forall i | 0 <= i < |here| && here[i].name == other ensures here[i] in entries {
      assert here[i] in Without(entries, name);
    }
    forall i | 0 <= i < |entries| && entries[i].name == other ensures entries[i] in here {
      assert entries[i] in Without(entries, name);
    }
  }

  // ---------------------------------------------------------------- parsing

  predicate ValidKeyId(id: string) {
    && 0 < |id| <= MAX_KEY_ID_LENGTH
    && forall c :: c in id ==> 'a' <= c <= 'z' || 'A' <= c <= 'Z' || '0' <= c <= '9' || c == '-' || c == '_'
  }

  predicate IsManifest(c: Content) {
    c.ManifestText? && Length(c) <= MAX_MANIFEST_BYTES && c.manifest.sound && Fits(c.manifest.files)
  }

  method ParseManifest(c: Content) returns (ok: bool)
    ensures ok <==> IsManifest(c)
  {
    hide Fits;
    if Length(c) > MAX_MANIFEST_BYTES || !c.ManifestText? || !c.manifest.sound { return false; }
    ok := CheckFiles(c.manifest.files);
  }

  predicate IsEnvelope(c: Content) {
    c.EnvelopeText? && Length(c) <= MAX_SIGNATURE_BYTES && ValidKeyId(c.keyId)
  }

  // ---------------------------------------------------------------- verifying

  function Payload(entries: seq<Entry>): seq<Found> { FoundAs(Leaves(entries, [])) }

  lemma PayloadDiffers(entries: seq<Entry>)
    requires WellNamed(entries)
    ensures DifferentPaths(Payload(entries))
  {
    hide Leaves, WellNamed;
    forall i, j | 0 <= i < j < |Payload(entries)| ensures Payload(entries)[i].path != Payload(entries)[j].path {
      PathsDistinct(entries, i, j);
    }
  }

  /** A trusted key of the manifest's publisher signed this very text, and the
      payload is its list. */
  ghost predicate Accepts(entries: seq<Entry>, trust: TrustStore) {
    var m, e := DocumentAt(entries, MANIFEST_FILE), DocumentAt(entries, SIGNATURE_FILE);
    && m.Some? && e.Some? && IsManifest(m.value) && IsEnvelope(e.value)
    && var who := (m.value.manifest.publisher, e.value.keyId);
    && who in trust && e.value.signature == Signature(trust[who], m.value)
    && Regular(entries) && |Payload(entries)| <= MAX_FILES && Exact(Payload(entries), m.value.manifest.files)
  }

  /** What an accepted tree is, with names and limits written out. */
  lemma AcceptsMeans(entries: seq<Entry>, trust: TrustStore)
    ensures Accepts(entries, trust) <==>
      var m, e := DocumentAt(entries, "package.json"), DocumentAt(entries, "package.sig.json");
      && m.Some? && m.value.ManifestText? && |m.value.raw| <= 1048576 && m.value.manifest.sound
      && Fits(m.value.manifest.files)
      && e.Some? && e.value.EnvelopeText? && |e.value.raw| <= 4096 && 1 <= |e.value.keyId| <= 64
      && (forall c :: c in e.value.keyId ==>
        '0' <= c <= '9' || 'A' <= c <= 'Z' || 'a' <= c <= 'z' || c == '-' || c == '_')
      && (m.value.manifest.publisher, e.value.keyId) in trust
      && e.value.signature == Signature(trust[(m.value.manifest.publisher, e.value.keyId)], m.value)
      && Regular(entries) && |Payload(entries)| <= 2048 && Exact(Payload(entries), m.value.manifest.files)
  {
    hide Fits, Regular, Exact, Payload, DocumentAt;
  }

  method Verify(entries: seq<Entry>, trust: TrustStore) returns (r: Option<Manifest>)
    requires WellNamed(entries)
    ensures r.Some? <==> Accepts(entries, trust)
    ensures r.Some? ==>
      ManifestText(DocumentAt(entries, MANIFEST_FILE).value.raw, r.value) == DocumentAt(entries, MANIFEST_FILE).value
  {
    hide WellNamed, Regular, Leaves, FoundAs, Exact, DocumentAt, ValidKeyId, PackagePath;
    var m := DocumentAt(entries, MANIFEST_FILE);
    if m.None? { return None; }
    var parses := ParseManifest(m.value);
    if !parses { return None; }
    var manifest := m.value.manifest;
    var e := DocumentAt(entries, SIGNATURE_FILE);
    if e.None? || !IsEnvelope(e.value) { return None; }
    if (manifest.publisher, e.value.keyId) !in trust { return None; }
    if e.value.signature != Signature(trust[(manifest.publisher, e.value.keyId)], m.value) { return None; }
    var ok := VerifyPayload(entries, manifest.files);
    if !ok { return None; }
    return Some(manifest);
  }

  // ---------------------------------------------------------------- signing

  function ListOf(entries: seq<Entry>): seq<Listed> { Lines(SortedByPath(Payload(entries))) }

  /** The manifest signed over the payload; `raw` is its encoding. */
  function TextFor(entries: seq<Entry>, template: Manifest, raw: string): Content {
    ManifestText(raw, template.(files := ListOf(entries)))
  }

  /** Sixty-four bytes in base64 without padding. */
  type Base64 = s: string | |s| == 86 witness seq(86, _ => 'A')

  /** The detached signature; `encoded` is the base64 of its bytes. */
  function EnvelopeFor(signer: Signer, text: Content, encoded: Base64): (c: Content)
    ensures Length(c) == 153 + |signer.keyId|
  {
    var raw := "{\"algorithm\":\"ed25519\",\"formatVersion\":1,\"keyId\":\"" + signer.keyId
               + "\",\"signature\":\"" + encoded + "\"}";
    EnvelopeText(raw, signer.keyId, Signature(signer.key, text))
  }

  function HalfSigned(entries: seq<Entry>, template: Manifest, raw: string): seq<Entry> {
    Put(entries, MANIFEST_FILE, TextFor(entries, template, raw))
  }

  function Signed(entries: seq<Entry>, signer: Signer, template: Manifest, raw: string, encoded: Base64): seq<Entry> {
    var envelope := EnvelopeFor(signer, TextFor(entries, template, raw), encoded);
    Put(HalfSigned(entries, template, raw), SIGNATURE_FILE, envelope)
  }

  /** What signing asks for before it writes. */
  ghost predicate Listable(entries: seq<Entry>, signer: Signer, template: Manifest, raw: string) {
    && ValidKeyId(signer.keyId) && template.sound && |raw| <= MAX_MANIFEST_BYTES
    && Regular(entries) && |Payload(entries)| <= MAX_FILES && Size(Lines(Payload(entries))) <= MAX_PACKAGE_BYTES
    && (forall f :: f in Payload(entries) ==> Length(f.content) <= MAX_FILE_BYTES && PackagePath(f.path))
  }

  /** What signing asks for. */
  ghost predicate Signable(entries: seq<Entry>, signer: Signer, template: Manifest, raw: string) {
    && Listable(entries, signer, template, raw)
    && Writable(entries, MANIFEST_FILE) && Writable(entries, SIGNATURE_FILE)
  }

  /** The list names every payload file once, in the order of the paths. */
  lemma ListIsOrdered(entries: seq<Entry>, i: nat, j: nat)
    requires WellNamed(entries) && i < j < |ListOf(entries)|
    ensures |ListOf(entries)| == |Payload(entries)|
    ensures exists k: nat :: Earlier(ListOf(entries)[i].path, ListOf(entries)[j].path, k)
  {
    hide Payload, WellNamed, SortedByPath, Before, Earlier;
    var sorted := SortedByPath(Payload(entries));
    PayloadDiffers(entries);
    SortingHolds(Payload(entries));
    SortingAscends(Payload(entries));
    assert ListOf(entries)[i] == Line(sorted[i]) && ListOf(entries)[j] == Line(sorted[j]);
    BeforeMeans(sorted[i].path, sorted[j].path);
  }

  /** A key id is letters, digits, dashes and underscores, at most 64 of them. */
  lemma KeyIdsAre(id: string)
    ensures ValidKeyId(id) <==>
      && 1 <= |id| <= 64
      && forall i :: 0 <= i < |id| ==>
        '0' <= id[i] <= '9' || 'A' <= id[i] <= 'Z' || 'a' <= id[i] <= 'z' || id[i] == '-' || id[i] == '_'
  {
    assert forall i :: 0 <= i < |id| ==> id[i] in id;
  }

  lemma CutIs(c: Content, written: nat)
    ensures written >= |c.raw| ==> Cut(c, written) == c
    ensures written < |c.raw| ==> Cut(c, written) == Plain(c.raw[..written])
  {
  }

  /** The list signing makes can be read back exactly when every payload file and
      their sum are within the limits. */
  lemma ListFits(entries: seq<Entry>)
    requires WellNamed(entries)
    ensures Fits(ListOf(entries)) <==>
      && |Payload(entries)| <= 2048 && Size(Lines(Payload(entries))) <= 268435456
      && forall f :: f in Payload(entries) ==> Length(f.content) <= 67108864 && PackagePath(f.path)
  {
    hide Payload, WellNamed, SortedByPath, PackagePath, Size;
    var found, sorted := Payload(entries), SortedByPath(Payload(entries));
    PayloadDiffers(entries);
    SortingHolds(found);
    SortingAscends(found);
    forall i, j | 0 <= i < j < |sorted| ensures sorted[i].path != sorted[j].path {
      BeforeIsTotal(sorted[i].path, sorted[j].path);
    }
    forall f ensures f in found <==> f in sorted { }
    if Fits(Lines(sorted)) {
      forall f | f in found ensures Length(f.content) <= MAX_FILE_BYTES && PackagePath(f.path) {
        var i :| 0 <= i < |sorted| && sorted[i] == f;
        assert Lines(sorted)[i] == Line(f);
      }
    } else {
      assert PathsOnce(Lines(sorted));
      assert forall i :: 0 <= i < |sorted| ==> sorted[i] in sorted;
    }
  }

  // ---------------------------------------------------------------- writing a document

  /** Stopped is a crash or an input/output error. */
  datatype Outcome = Done | Refused | Stopped

  /** Where a write is cut off: before anything is there, with so many bytes in the
      temporary file, after the rename, or nowhere. */
  datatype Halt = Early | Inside(written: nat) | Late | Never

  predicate UuidChar(c: char) { '0' <= c <= '9' || 'a' <= c <= 'f' || c == '-' }

  type Uuid = s: string | |s| == 36 && forall c :: c in s ==> UuidChar(c) witness seq(36, _ => '0')

  /** The temporary file stands in the root, beside the document. */
  function TempName(name: string, drawn: Uuid): string { "." + name + ".tmp-" + drawn }

  predicate Has(entries: seq<Entry>, name: string) {
    exists i :: 0 <= i < |entries| && entries[i].name == name
  }

  /** The first bytes of a document; cut short it parses as nothing. */
  function Cut(c: Content, written: nat): Content {
    if written >= |c.raw| then c else Plain(c.raw[..written])
  }

  function WithTemp(entries: seq<Entry>, temp: string, content: Content): seq<Entry> {
    entries + [Entry(temp, File(content))]
  }

  /** What writing a document comes to. */
  function Written(entries: seq<Entry>, name: string, content: Content, drawn: Uuid, halt: Halt)
    : (Outcome, seq<Entry>)
  {
    var temp := TempName(name, drawn);
    if halt == Early then (Stopped, entries)
    else if Has(entries, temp) then (Refused, entries)
    else if halt.Inside? then (Stopped, WithTemp(entries, temp, Cut(content, halt.written)))
    else if !Writable(entries, name) then (Refused, entries)
    else (if halt == Late then Stopped else Done, Put(entries, name, content))
  }

  lemma {:induction false} WithoutTemp(entries: seq<Entry>, temp: string, content: Content)
    requires !Has(entries, temp)
    ensures Without(WithTemp(entries, temp, content), temp) == entries
  {
    var all := WithTemp(entries, temp, content);
    if entries == [] {
      assert all[1..] == [];
    } else {
      assert entries[0].name != temp;
      assert !Has(entries[1..], temp);
      WithoutTemp(entries[1..], temp, content);
      assert all[1..] == WithTemp(entries[1..], temp, content);
      assert entries == [entries[0]] + entries[1..];
    }
  }

  // ---------------------------------------------------------------- one attempt to sign

  /** One call: what it is given, the names it draws and where its two writes are
      cut off. */
  datatype Attempt = Attempt(
    signer: Signer, template: Manifest, raw: string, encoded: Base64,
    first: Uuid, second: Uuid, manifestHalt: Halt, signatureHalt: Halt)

  /** What the call comes to. */
  ghost function Attempted(entries: seq<Entry>, a: Attempt): (Outcome, seq<Entry>) {
    if !Listable(entries, a.signer, a.template, a.raw) then (Refused, entries)
    else
      var text := TextFor(entries, a.template, a.raw);
      var (out, half) := Written(entries, MANIFEST_FILE, text, a.first, a.manifestHalt);
      if out != Done then (out, half)
      else Written(half, SIGNATURE_FILE, EnvelopeFor(a.signer, text, a.encoded), a.second, a.signatureHalt)
  }

  /** No temporary name drawn is there already. */
  predicate Unused(entries: seq<Entry>, a: Attempt) {
    !Has(entries, TempName(MANIFEST_FILE, a.first)) && !Has(entries, TempName(SIGNATURE_FILE, a.second))
  }

  /** The root when the call ends early. */
  ghost predicate CutOff(before: seq<Entry>, now: seq<Entry>, a: Attempt) {
    var text, half := TextFor(before, a.template, a.raw), HalfSigned(before, a.template, a.raw);
    || now == before || now == half
    || (a.manifestHalt.Inside?
        && now == WithTemp(before, TempName(MANIFEST_FILE, a.first), Cut(text, a.manifestHalt.written)))
    || (a.signatureHalt.Inside?
        && now == WithTemp(half, TempName(SIGNATURE_FILE, a.second),
                           Cut(EnvelopeFor(a.signer, text, a.encoded), a.signatureHalt.written)))
    || (a.signatureHalt == Late && now == Signed(before, a.signer, a.template, a.raw, a.encoded))
  }

  lemma PutHas(entries: seq<Entry>, name: string, content: Content, other: string)
    requires other != name
    ensures Has(Put(entries, name, content), other) <==> Has(entries, other)
  {
    WithoutHolds(entries, name);
    var here := Put(entries, name, content);
    if i :| 0 <= i < |entries| && entries[i].name == other {
      assert entries[i] in Without(entries, name);
      assert entries[i] in here;
    }
    if i :| 0 <= i < |here| && here[i].name == other {
      assert here[i] in Without(entries, name);
      assert here[i] in entries;
    }
  }

  lemma TempIsOther(drawn: Uuid)
    ensures TempName(MANIFEST_FILE, drawn) != MANIFEST_FILE && TempName(MANIFEST_FILE, drawn) != SIGNATURE_FILE
    ensures TempName(SIGNATURE_FILE, drawn) != MANIFEST_FILE && TempName(SIGNATURE_FILE, drawn) != SIGNATURE_FILE
  {
    assert TempName(MANIFEST_FILE, drawn)[0] == '.' && TempName(SIGNATURE_FILE, drawn)[0] == '.';
  }

  /** A call succeeds exactly when it may, draws unused names and is not cut off;
      and every other exit is one of five. */
  lemma AttemptDecides(entries: seq<Entry>, a: Attempt)
    ensures var (out, now) := Attempted(entries, a);
      && (out == Done <==>
            && Signable(entries, a.signer, a.template, a.raw) && Unused(entries, a)
            && a.manifestHalt == a.signatureHalt == Never)
      && (out == Done ==> now == Signed(entries, a.signer, a.template, a.raw, a.encoded))
      && (out != Done ==> CutOff(entries, now, a))
      && (out == Refused ==> now == entries || now == HalfSigned(entries, a.template, a.raw))
      && (out == Stopped ==> a.manifestHalt != Never || a.signatureHalt != Never)
  {
    hide Listable, TextFor, EnvelopeFor, Put, Writable, Has, Cut, TempName;
    var text := TextFor(entries, a.template, a.raw);
    PutStaysWritable(entries, MANIFEST_FILE, text, SIGNATURE_FILE);
    TempIsOther(a.second);
    PutHas(entries, MANIFEST_FILE, text, TempName(SIGNATURE_FILE, a.second));
  }

  /** A package root, signed in place. */
  class Root {
    var entries: seq<Entry>

    constructor (entries: seq<Entry>)
      ensures this.entries == entries
    {
      this.entries := entries;
    }

    /** Fails on a file or a sum over its limit. The running total saturates. */
    static method ListFiles(found: seq<Found>) returns (r: Option<seq<Listed>>)
      ensures r.Some? <==>
        Size(Lines(found)) <= MAX_PACKAGE_BYTES && forall f :: f in found ==> Length(f.content) <= MAX_FILE_BYTES
      ensures r.Some? ==> r.value == Lines(found)
    {
      var files: seq<Listed> := [];
      var total := 0;
      for k := 0 to |found|
        invariant files == Lines(found)[..k] && total == Size(files) <= MAX_PACKAGE_BYTES
        invariant forall i :: 0 <= i < k ==> Length(found[i].content) <= MAX_FILE_BYTES
      {
        var f := found[k];
        if Length(f.content) > MAX_FILE_BYTES { return None; }
        total := SaturatingAdd(total, Length(f.content));
        assert Lines(found)[..k + 1] == files + [Line(f)];
        SizeGrows(Lines(found), k + 1);
        assert Lines(found)[..k + 1][..k] == files;
        if total > MAX_PACKAGE_BYTES { return None; }
        files := files + [Line(f)];
      }
      assert Lines(found)[..|found|] == Lines(found);
      return Some(files);
    }

    /** Writes a temporary file in the root and renames it into place. A failed
        rename removes it again; a failed write leaves it there. */
    method WriteAtomic(name: string, content: Content, drawn: Uuid, halt: Halt) returns (out: Outcome)
      modifies this
      ensures (out, entries) == Written(old(entries), name, content, drawn, halt)
    {
      var temp := TempName(name, drawn);
      if halt == Early { return Stopped; }
      if Has(entries, temp) { return Refused; }
      if halt.Inside? {
        entries := WithTemp(entries, temp, Cut(content, halt.written));
        return Stopped;
      }
      WithoutTemp(entries, temp, content);
      entries := WithTemp(entries, temp, content);
      if exists i :: 0 <= i < |entries| && entries[i].name == name && entries[i].node.Dir? {
        ghost var k :| 0 <= k < |entries| && entries[k].name == name && entries[k].node.Dir?;
        assert old(entries)[k] == entries[k];
        entries := Without(entries, temp);
        return Refused;
      }
      assert forall i :: 0 <= i < |old(entries)| ==> old(entries)[i] == entries[i];
      entries := Put(Without(entries, temp), name, content);
      return if halt == Late then Stopped else Done;
    }

    /** Signs what is there now. */
    method Sign(a: Attempt) returns (out: Outcome)
      requires WellNamed(entries)
      modifies this
      ensures (out, entries) == Attempted(old(entries), a)
      ensures out == Done <==>
        && Signable(old(entries), a.signer, a.template, a.raw) && Unused(old(entries), a)
        && a.manifestHalt == a.signatureHalt == Never
      ensures out == Done ==> entries == Signed(old(entries), a.signer, a.template, a.raw, a.encoded)
      ensures out != Done ==> CutOff(old(entries), entries, a)
      ensures out == Refused ==> entries == old(entries) || entries == HalfSigned(old(entries), a.template, a.raw)
    {
      hide WellNamed, Regular, Leaves, FoundAs, ValidKeyId, PackagePath, SortedByPath, Size, Put, Writable;
      hide Written, CutOff, Unused, Signed, HalfSigned;
      AttemptDecides(entries, a);
      if !ValidKeyId(a.signer.keyId) { return Refused; }
      var walked := CollectPayloadFiles(entries, "", [], []);
      if walked.None? { return Refused; }
      var found := SortedByPath(walked.value);
      ListFits(entries);
      assert walked.value == Payload(entries);
      SortingHolds(walked.value);
      var files := ListFiles(found);
      if files.None? { return Refused; }
      var text := ManifestText(a.raw, a.template.(files := files.value));
      var parses := ParseManifest(text);
      if !parses { return Refused; }
      out := WriteAtomic(MANIFEST_FILE, text, a.first, a.manifestHalt);
      if out != Done { return; }
      out := WriteAtomic(SIGNATURE_FILE, EnvelopeFor(a.signer, text, a.encoded), a.second, a.signatureHalt);
    }
  }

  // ---------------------------------------------------------------- signed packages

  lemma SignedHolds(entries: seq<Entry>, signer: Signer, template: Manifest, raw: string, encoded: Base64)
    requires WellNamed(entries) && Signable(entries, signer, template, raw)
    ensures var tree := Signed(entries, signer, template, raw, encoded);
      && WellNamed(tree) && Regular(tree) && Payload(tree) == Payload(entries)
      && DocumentAt(tree, MANIFEST_FILE) == Some(TextFor(entries, template, raw))
      && DocumentAt(tree, SIGNATURE_FILE) == Some(EnvelopeFor(signer, TextFor(entries, template, raw), encoded))
  {
    hide WellNamed, Regular, Leaves, Put, Writable, DocumentAt, TextFor, EnvelopeFor, PackagePath, Size, Lines;
    hide ValidKeyId, Length;
    var text := TextFor(entries, template, raw);
    var half := Put(entries, MANIFEST_FILE, text);
    PutStaysRegular(entries, MANIFEST_FILE, text);
    PutKeepsPayload(entries, MANIFEST_FILE, text);
    PutStaysWritable(entries, MANIFEST_FILE, text, SIGNATURE_FILE);
    PutIsFound(entries, MANIFEST_FILE, text, SIGNATURE_FILE);
    var envelope := EnvelopeFor(signer, text, encoded);
    PutStaysRegular(half, SIGNATURE_FILE, envelope);
    PutKeepsPayload(half, SIGNATURE_FILE, envelope);
    PutIsFound(half, SIGNATURE_FILE, envelope, MANIFEST_FILE);
  }

  /** What was signed is accepted, as long as the tree stays unchanged, exactly by
      those who trust that key for that publisher. */
  lemma SignThenVerify(entries: seq<Entry>, signer: Signer, template: Manifest, raw: string, encoded: Base64,
    trust: TrustStore)
    requires WellNamed(entries) && Signable(entries, signer, template, raw)
    ensures Accepts(Signed(entries, signer, template, raw, encoded), trust) <==>
      (template.publisher, signer.keyId) in trust && trust[(template.publisher, signer.keyId)] == signer.key
  {
    hide WellNamed, Regular, Payload, Signed, DocumentAt, PackagePath, Size, Lines, Fits, Exact, Writable, SortedByPath;
    SignedHolds(entries, signer, template, raw, encoded);
    ListFits(entries);
    ListIsExact(entries);
  }

  lemma ListIsExact(entries: seq<Entry>)
    ensures Exact(Payload(entries), ListOf(entries))
  {
    hide Payload, SortedByPath;
    var found, sorted := Payload(entries), SortedByPath(Payload(entries));
    SortingHolds(found);
    forall l ensures l in Lines(found) <==> l in Lines(sorted) {
      SameLine(found, sorted, l);
      SameLine(sorted, found, l);
    }
  }

  lemma SameLine(a: seq<Found>, b: seq<Found>, l: Listed)
    requires forall f :: f in a ==> f in b
    ensures l in Lines(a) ==> l in Lines(b)
  {
    if l in Lines(a) {
      var i :| 0 <= i < |a| && Lines(a)[i] == l;
      assert a[i] in b;
      var k :| 0 <= k < |b| && b[k] == a[i];
      assert Lines(b)[k] == l;
    }
  }

  function SignatureOf(entries: seq<Entry>): Option<Signature> {
    var e := DocumentAt(entries, SIGNATURE_FILE);
    if e.Some? && e.value.EnvelopeText? then Some(e.value.signature) else None
  }

  /** Two accepted trees with one signature have the same manifest and the same
      payload, byte for byte. */
  lemma OneSignatureOnePackage(a: seq<Entry>, b: seq<Entry>, trustA: TrustStore, trustB: TrustStore)
    requires Accepts(a, trustA) && Accepts(b, trustB) && SignatureOf(a) == SignatureOf(b)
    ensures DocumentAt(a, MANIFEST_FILE) == DocumentAt(b, MANIFEST_FILE)
    ensures forall f :: f in Payload(a) <==> f in Payload(b)
  {
    hide Regular, Payload, DocumentAt, Fits, ValidKeyId, Lines;
    SamePayload(Payload(a), Payload(b));
  }

  /** Signing stopped between its two documents: what stands there is accepted
      only if the signature already there covers the very text just written. */
  lemma HalfSignedIsOldSignature(entries: seq<Entry>, template: Manifest, raw: string, trust: TrustStore)
    requires Accepts(HalfSigned(entries, template, raw), trust)
    ensures SignatureOf(entries).Some? && SignatureOf(entries).value.over == TextFor(entries, template, raw)
  {
    hide Regular, Payload, DocumentAt, Fits, ValidKeyId, Put, Exact;
    PutIsFound(entries, MANIFEST_FILE, TextFor(entries, template, raw), SIGNATURE_FILE);
  }

  /** The text signed depends on the payload only, not on the order in which the
      directories are read. */
  lemma SigningIgnoresOrder(a: seq<Entry>, b: seq<Entry>, template: Manifest, raw: string)
    requires WellNamed(a) && WellNamed(b) && forall f :: f in Payload(a) <==> f in Payload(b)
    ensures TextFor(a, template, raw) == TextFor(b, template, raw)
  {
    hide Payload, WellNamed, SortedByPath, Ascending;
    PayloadDiffers(a);
    PayloadDiffers(b);
    SortingHolds(Payload(a));
    SortingHolds(Payload(b));
    SortingAscends(Payload(a));
    SortingAscends(Payload(b));
    AscendingOnce(SortedByPath(Payload(a)), SortedByPath(Payload(b)));
  }
}
