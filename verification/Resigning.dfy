/** Signing a package root again after calls that were cut off
    (app-packages/src/sign.rs). A temporary file that a call leaves in the root is
    payload to the next one. */
module Resigning {
  import opened Wrappers
  import opened Packages
  import opened Signing

  // ---------------------------------------------------------------- leftovers

  function TempPrefix(name: string): string { "." + name + ".tmp-" }

  predicate IsLeftover(name: string) { TempPrefix(MANIFEST_FILE) <= name || TempPrefix(SIGNATURE_FILE) <= name }

  /** No entry of the root is named like a temporary file: what a caller can check
      before signing. */
  predicate Clean(entries: seq<Entry>) { forall i :: 0 <= i < |entries| ==> !IsLeftover(entries[i].name) }

  function Swept(entries: seq<Entry>): seq<Entry> {
    if entries == [] then []
    else (if IsLeftover(entries[0].name) then [] else [entries[0]]) + Swept(entries[1..])
  }

  lemma TempIsLeftover(name: string, drawn: Uuid)
    requires IsDocument(name)
    ensures IsLeftover(TempName(name, drawn)) && !IsLeftover(name) && Name(TempName(name, drawn)) && Name(name)
  {
    var temp := TempName(name, drawn);
    assert temp[..|TempPrefix(name)|] == TempPrefix(name);
    assert TempPrefix(MANIFEST_FILE)[0] == '.' && TempPrefix(SIGNATURE_FILE)[0] == '.' && name[0] == 'p';
    forall i | 0 <= i < |temp| ensures temp[i] != '/' {
      if i >= |TempPrefix(name)| { assert temp[i] == drawn[i - |TempPrefix(name)|]; }
    }
  }

  lemma {:induction false} SweptHolds(entries: seq<Entry>)
    ensures forall e :: e in Swept(entries) <==> e in entries && !IsLeftover(e.name)
  {
    hide IsLeftover;
    if entries != [] {
      SweptHolds(entries[1..]);
      assert entries == [entries[0]] + entries[1..];
    }
  }

  lemma {:induction false} CleanIsSwept(entries: seq<Entry>)
    ensures Clean(entries) ==> Swept(entries) == entries
  {
    hide IsLeftover;
    if entries != [] {
      CleanIsSwept(entries[1..]);
      assert entries == [entries[0]] + entries[1..];
    }
  }

  lemma {:induction false} SweptWellNamed(entries: seq<Entry>)
    requires WellNamed(entries)
    ensures WellNamed(Swept(entries))
  {
    hide IsLeftover;
    if entries != [] {
      assert WellNamed(entries[1..]);
      SweptWellNamed(entries[1..]);
      SweptHolds(entries[1..]);
      var rest := Swept(entries[1..]);
      forall i | 0 <= i < |rest| ensures rest[i].name != entries[0].name {
        assert rest[i] in entries[1..];
        var k :| 0 <= k < |entries[1..]| && entries[1..][k] == rest[i];
        assert entries[k + 1] == rest[i];
      }
    }
  }

  // ---------------------------------------------------------------- order of removals

  lemma {:induction false} SweptAppend(a: seq<Entry>, b: seq<Entry>)
    ensures Swept(a + b) == Swept(a) + Swept(b)
  {
    hide IsLeftover;
    if a == [] {
      assert a + b == b;
    } else {
      assert (a + b)[0] == a[0] && (a + b)[1..] == a[1..] + b;
      SweptAppend(a[1..], b);
    }
  }

  lemma {:induction false} WithoutAppend(a: seq<Entry>, b: seq<Entry>, name: string)
    ensures Without(a + b, name) == Without(a, name) + Without(b, name)
  {
    if a == [] {
      assert a + b == b;
    } else {
      assert (a + b)[0] == a[0] && (a + b)[1..] == a[1..] + b;
      WithoutAppend(a[1..], b, name);
    }
  }

  lemma {:induction false} WithoutCommutes(entries: seq<Entry>, x: string, y: string)
    ensures Without(Without(entries, x), y) == Without(Without(entries, y), x)
  {
    if entries != [] {
      WithoutCommutes(entries[1..], x, y);
      var e := entries[0];
      WithoutAppend(if e.name == x then [] else [e], Without(entries[1..], x), y);
      WithoutAppend(if e.name == y then [] else [e], Without(entries[1..], y), x);
      WithoutOne(e, x);
      WithoutOne(e, y);
    }
  }

  lemma WithoutOne(e: Entry, name: string)
    ensures Without([e], name) == if e.name == name then [] else [e]
  {
    assert [e][1..] == [];
  }

  lemma {:induction false} SweptWithout(entries: seq<Entry>, name: string)
    ensures Swept(Without(entries, name)) == Without(Swept(entries), name)
  {
    hide IsLeftover;
    if entries != [] {
      SweptWithout(entries[1..], name);
      var e := entries[0];
      SweptAppend(if e.name == name then [] else [e], Without(entries[1..], name));
      WithoutAppend(if IsLeftover(e.name) then [] else [e], Swept(entries[1..]), name);
      WithoutOne(e, name);
      assert [e][1..] == [] && Swept([e]) == if IsLeftover(e.name) then [] else [e];
    }
  }

  lemma {:induction false} WithoutTwice(entries: seq<Entry>, name: string)
    ensures Without(Without(entries, name), name) == Without(entries, name)
  {
    if entries != [] {
      WithoutTwice(entries[1..], name);
      var e := entries[0];
      WithoutAppend(if e.name == name then [] else [e], Without(entries[1..], name), name);
      WithoutOne(e, name);
    }
  }

  // ---------------------------------------------------------------- what documents leave alone

  /** The root without its two documents. */
  function Bare(entries: seq<Entry>): seq<Entry> { Without(Without(entries, MANIFEST_FILE), SIGNATURE_FILE) }

  /** Two roots that signing cannot tell apart. */
  ghost predicate Alike(a: seq<Entry>, b: seq<Entry>) {
    && Bare(a) == Bare(b) && Payload(a) == Payload(b) && (Regular(a) <==> Regular(b))
    && (Writable(a, MANIFEST_FILE) <==> Writable(b, MANIFEST_FILE))
    && (Writable(a, SIGNATURE_FILE) <==> Writable(b, SIGNATURE_FILE))
  }

  lemma BarePut(entries: seq<Entry>, name: string, content: Content)
    requires IsDocument(name)
    ensures Bare(Put(entries, name, content)) == Bare(entries)
  {
    var doc := Entry(name, File(content));
    var rest := Without(entries, name);
    WithoutAppend(rest, [doc], MANIFEST_FILE);
    WithoutOne(doc, MANIFEST_FILE);
    WithoutOne(doc, SIGNATURE_FILE);
    WithoutAppend(Without(rest, MANIFEST_FILE), Without([doc], MANIFEST_FILE), SIGNATURE_FILE);
    WithoutTwice(entries, MANIFEST_FILE);
    WithoutTwice(Without(entries, MANIFEST_FILE), SIGNATURE_FILE);
    WithoutCommutes(entries, MANIFEST_FILE, SIGNATURE_FILE);
  }

  lemma PutIsAlike(entries: seq<Entry>, name: string, content: Content)
    requires WellNamed(entries) && Regular(entries) && IsDocument(name) && Writable(entries, name)
    ensures WellNamed(Put(entries, name, content)) && Alike(entries, Put(entries, name, content))
  {
    hide Leaves, Regular, WellNamed, Put, Bare;
    BarePut(entries, name, content);
    PutKeepsPayload(entries, name, content);
    PutStaysRegular(entries, name, content);
    PutStaysWritable(entries, name, content, if name == MANIFEST_FILE then SIGNATURE_FILE else MANIFEST_FILE);
    PutWritable(entries, name, content);
  }

  lemma PutWritable(entries: seq<Entry>, name: string, content: Content)
    ensures Writable(Put(entries, name, content), name)
  {
    WithoutHolds(entries, name);
    assert forall e :: e in Without(entries, name) ==> e.name != name;
  }

  /** The signed root is its bare entries and the two documents. */
  lemma SignedIsBare(entries: seq<Entry>, a: Attempt)
    ensures var text := TextFor(entries, a.template, a.raw);
      Signed(entries, a.signer, a.template, a.raw, a.encoded)
        == Bare(entries) + [Entry(MANIFEST_FILE, File(text)),
                            Entry(SIGNATURE_FILE, File(EnvelopeFor(a.signer, text, a.encoded)))]
  {
    hide TextFor, EnvelopeFor;
    var doc := Entry(MANIFEST_FILE, File(TextFor(entries, a.template, a.raw)));
    WithoutAppend(Without(entries, MANIFEST_FILE), [doc], SIGNATURE_FILE);
    WithoutOne(doc, SIGNATURE_FILE);
  }

  lemma CleanIsUnused(entries: seq<Entry>, a: Attempt)
    requires Clean(entries)
    ensures Unused(entries, a)
  {
    hide IsLeftover, TempName;
    TempIsLeftover(MANIFEST_FILE, a.first);
    TempIsLeftover(SIGNATURE_FILE, a.second);
  }

  /** Clean roots that are alike are signed alike. */
  lemma AlikeSigns(x: seq<Entry>, y: seq<Entry>, a: Attempt)
    requires Clean(x) && Clean(y) && Alike(x, y)
    ensures Attempted(x, a).0 == Done <==> Attempted(y, a).0 == Done
    ensures Attempted(x, a).0 == Done ==> Attempted(x, a) == Attempted(y, a)
  {
    hide Attempted, Clean, Unused, Regular, Payload, Writable, Signed, Bare, PackagePath, Size, Lines, ValidKeyId;
    hide CutOff;
    CleanIsUnused(x, a);
    CleanIsUnused(y, a);
    AttemptDecides(x, a);
    AttemptDecides(y, a);
    SignedIsBare(x, a);
    SignedIsBare(y, a);
    assert TextFor(x, a.template, a.raw) == TextFor(y, a.template, a.raw);
  }

  // ---------------------------------------------------------------- any number of attempts

  ghost function AfterAll(entries: seq<Entry>, run: seq<Attempt>): seq<Entry> {
    if run == [] then entries else Attempted(AfterAll(entries, run[..|run| - 1]), run[|run| - 1]).1
  }

  lemma TempIsWellNamed(entries: seq<Entry>, name: string, drawn: Uuid, content: Content)
    requires WellNamed(entries) && IsDocument(name) && !Has(entries, TempName(name, drawn))
    ensures var tree := WithTemp(entries, TempName(name, drawn), content);
      WellNamed(tree) && Swept(tree) == Swept(entries) && !Clean(tree)
  {
    var temp := TempName(name, drawn);
    var tree := WithTemp(entries, temp, content);
    assert IsLeftover(temp) && Name(temp) by { TempIsLeftover(name, drawn); }
    assert tree[|entries|].name == temp;
    SweptAppend(entries, [Entry(temp, File(content))]);
    assert [Entry(temp, File(content))][1..] == [];
  }

  /** What one write does, seen without leftovers. */
  lemma WriteSweeps(entries: seq<Entry>, name: string, content: Content, drawn: Uuid, halt: Halt)
    requires WellNamed(entries) && Regular(entries) && IsDocument(name)
    ensures var (out, now) := Written(entries, name, content, drawn, halt);
      && WellNamed(now) && Alike(Swept(entries), Swept(now)) && (out == Done ==> Regular(now))
  {
    hide Leaves, Regular, WellNamed, Put, Bare, Clean, Payload, Has, Cut, TempName, WithTemp, IsLeftover, Swept, Alike;
    AlikeItself(Swept(entries));
    if halt.Inside? && !Has(entries, TempName(name, drawn)) {
      TempIsWellNamed(entries, name, drawn, Cut(content, halt.written));
    } else if Written(entries, name, content, drawn, halt).1 != entries {
      PutSweeps(entries, name, content);
    }
  }

  lemma AlikeItself(entries: seq<Entry>)
    ensures Alike(entries, entries)
  {
  }

  lemma PutSweeps(entries: seq<Entry>, name: string, content: Content)
    requires WellNamed(entries) && Regular(entries) && IsDocument(name) && Writable(entries, name)
    ensures WellNamed(Put(entries, name, content)) && Regular(Put(entries, name, content))
    ensures Alike(Swept(entries), Swept(Put(entries, name, content)))
  {
    hide Leaves, WellNamed, Bare, IsLeftover, Swept, Alike;
    var swept := Swept(entries);
    SweptHolds(entries);
    SweptWellNamed(entries);
    assert Regular(swept) by { assert forall i :: 0 <= i < |swept| ==> swept[i] in entries; }
    assert Writable(swept, name) by { assert forall i :: 0 <= i < |swept| ==> swept[i] in entries; }
    PutStaysRegular(entries, name, content);
    var doc := Entry(name, File(content));
    SweptAppend(Without(entries, name), [doc]);
    SweptWithout(entries, name);
    assert Swept([doc]) == [doc] by { DocumentStays(doc); }
    assert Swept(Put(entries, name, content)) == Put(swept, name, content);
    PutIsAlike(swept, name, content);
  }

  lemma DocumentStays(doc: Entry)
    requires IsDocument(doc.name)
    ensures Swept([doc]) == [doc]
  {
    TempIsLeftover(doc.name, seq(36, _ => '0'));
    assert [doc][1..] == [];
  }

  lemma AlikeChains(x: seq<Entry>, y: seq<Entry>, z: seq<Entry>)
    requires Alike(x, y) && Alike(y, z)
    ensures Alike(x, z)
  {
  }

  lemma AttemptSweeps(entries: seq<Entry>, a: Attempt)
    requires WellNamed(entries)
    ensures WellNamed(Attempted(entries, a).1) && Alike(Swept(entries), Swept(Attempted(entries, a).1))
  {
    hide WellNamed, Swept, Alike, Written, TextFor, EnvelopeFor, Payload, PackagePath, Size, Lines, ValidKeyId, Regular;
    AlikeItself(Swept(entries));
    if Listable(entries, a.signer, a.template, a.raw) {
      var text := TextFor(entries, a.template, a.raw);
      WriteSweeps(entries, MANIFEST_FILE, text, a.first, a.manifestHalt);
      var (out, half) := Written(entries, MANIFEST_FILE, text, a.first, a.manifestHalt);
      if out == Done {
        var envelope := EnvelopeFor(a.signer, text, a.encoded);
        WriteSweeps(half, SIGNATURE_FILE, envelope, a.second, a.signatureHalt);
        AlikeChains(Swept(entries), Swept(half), Swept(Attempted(entries, a).1));
      }
    }
  }

  lemma {:induction false} RunSweeps(entries: seq<Entry>, run: seq<Attempt>)
    requires WellNamed(entries)
    ensures WellNamed(AfterAll(entries, run)) && Alike(Swept(entries), Swept(AfterAll(entries, run)))
  {
    hide WellNamed, Swept, Alike, Attempted;
    if run == [] {
      AlikeItself(Swept(entries));
    } else {
      var before := AfterAll(entries, run[..|run| - 1]);
      RunSweeps(entries, run[..|run| - 1]);
      AttemptSweeps(before, run[|run| - 1]);
      AlikeChains(Swept(entries), Swept(before), Swept(AfterAll(entries, run)));
    }
  }

  lemma SweptIsClean(entries: seq<Entry>)
    ensures Clean(Swept(entries))
  {
    SweptHolds(entries);
    assert forall i :: 0 <= i < |Swept(entries)| ==> Swept(entries)[i] in Swept(entries);
  }

  /** However many calls were cut off wherever, once the leftovers are removed by
      name, signing comes to what it would have come to at first. */
  lemma SweepingConverges(entries: seq<Entry>, run: seq<Attempt>, a: Attempt)
    requires WellNamed(entries) && Clean(entries)
    ensures var swept := Swept(AfterAll(entries, run));
      && (Attempted(swept, a).0 == Done <==> Attempted(entries, a).0 == Done)
      && (Attempted(entries, a).0 == Done ==> Attempted(swept, a) == Attempted(entries, a))
  {
    hide WellNamed, Swept, Alike, Attempted, Clean, AfterAll;
    RunSweeps(entries, run);
    CleanIsSwept(entries);
    SweptIsClean(AfterAll(entries, run));
    AlikeSigns(entries, Swept(AfterAll(entries, run)), a);
  }

  lemma SignedStaysUnclean(entries: seq<Entry>, a: Attempt)
    requires Attempted(entries, a).0 == Done
    ensures Clean(Attempted(entries, a).1) <==> Clean(entries)
  {
    hide IsLeftover, Attempted, Signable, Unused, CutOff, TextFor, EnvelopeFor;
    AttemptDecides(entries, a);
    var text := TextFor(entries, a.template, a.raw);
    PutCleans(entries, MANIFEST_FILE, text);
    PutCleans(HalfSigned(entries, a.template, a.raw), SIGNATURE_FILE, EnvelopeFor(a.signer, text, a.encoded));
  }

  lemma PutCleans(entries: seq<Entry>, name: string, content: Content)
    requires IsDocument(name)
    ensures Clean(Put(entries, name, content)) <==> Clean(entries)
  {
    hide IsLeftover;
    TempIsLeftover(name, seq(36, _ => '0'));
    WithoutHolds(entries, name);
    var here := Put(entries, name, content);
    forall i | 0 <= i < |here| ensures here[i] in entries || here[i].name == name {
      if i < |here| - 1 { assert here[i] in Without(entries, name); }
    }
    forall i | 0 <= i < |entries| ensures entries[i] in here || entries[i].name == name {
      if entries[i].name != name { assert entries[i] in Without(entries, name); }
    }
  }

  /** After any number of calls cut off wherever, a call that succeeds leaves the
      root that one uninterrupted call would have left if and only if it found no
      leftover. */
  lemma SigningAgain(entries: seq<Entry>, run: seq<Attempt>, a: Attempt)
    requires WellNamed(entries) && Clean(entries) && Attempted(AfterAll(entries, run), a).0 == Done
    ensures Attempted(AfterAll(entries, run), a) == Attempted(entries, a) <==> Clean(AfterAll(entries, run))
  {
    hide WellNamed, Swept, Attempted, Clean, AfterAll;
    var now := AfterAll(entries, run);
    if Clean(now) {
      CleanIsSwept(now);
      SweepingConverges(entries, run, a);
    } else {
      SignedStaysUnclean(now, a);
      if Attempted(entries, a).0 == Done { SignedStaysUnclean(entries, a); }
    }
  }

  // ---------------------------------------------------------------- a leftover is payload

  lemma {:induction false} TempKeepsDocuments(entries: seq<Entry>, temp: string, content: Content, name: string)
    requires name != temp
    ensures DocumentAt(WithTemp(entries, temp, content), name) == DocumentAt(entries, name)
  {
    var tree := WithTemp(entries, temp, content);
    if entries == [] {
      assert tree[1..] == [];
    } else {
      assert tree[1..] == WithTemp(entries[1..], temp, content);
      TempKeepsDocuments(entries[1..], temp, content, name);
    }
  }

  /** The temporary file comes last in the walk and no other has its path. */
  lemma TempIsPayload(entries: seq<Entry>, name: string, drawn: Uuid, content: Content)
    requires WellNamed(entries) && IsDocument(name) && !Has(entries, TempName(name, drawn))
    ensures var temp := TempName(name, drawn);
      && Payload(WithTemp(entries, temp, content)) == Payload(entries) + [Found(temp, content)]
      && forall f :: f in Payload(entries) ==> f.path != temp
  {
    hide Leaves, WellNamed, TempName, FoundAs, IsLeftover, Clean;
    var temp := TempName(name, drawn);
    var tree := WithTemp(entries, temp, content);
    TempIsWellNamed(entries, name, drawn, content);
    assert temp != MANIFEST_FILE && temp != SIGNATURE_FILE by { TempIsOther(drawn); }
    var e := Entry(temp, File(content));
    LeavesAppend(entries, [e], []);
    FoundMore(Leaves(entries, []), Leaves([e], []));
    assert FoundAs(Leaves([e], [])) == [Found(temp, content)] by { OneFile(e); }
    PayloadDiffers(tree);
    var n := |Payload(entries)|;
    assert Payload(tree)[n] == Found(temp, content);
    forall f | f in Payload(entries) ensures f.path != temp {
      var i :| 0 <= i < n && Payload(entries)[i] == f;
      assert Payload(tree)[i] == f;
    }
  }

  lemma OneFile(e: Entry)
    requires e.node.File? && e.name != MANIFEST_FILE && e.name != SIGNATURE_FILE
    ensures FoundAs(Leaves([e], [])) == [Found(e.name, e.node.content)]
  {
    assert [e][1..] == [] && Leaves([e], []) == LeavesOf(e, []);
    assert [] + [e.name] == [e.name] && Join([e.name]) == e.name;
    assert !Document([e.name]);
  }

  /** A list that fits the payload does not fit it any more beside a leftover. */
  lemma LeftoverIsUnlisted(entries: seq<Entry>, name: string, drawn: Uuid, content: Content, files: seq<Listed>)
    requires WellNamed(entries) && IsDocument(name) && !Has(entries, TempName(name, drawn))
    requires Exact(Payload(entries), files)
    ensures !Exact(Payload(WithTemp(entries, TempName(name, drawn), content)), files)
  {
    hide Payload, WellNamed, TempName, Has, WithTemp;
    TempIsPayload(entries, name, drawn, content);
    var temp := TempName(name, drawn);
    var found := Payload(WithTemp(entries, temp, content));
    var l := Line(Found(temp, content));
    assert Lines(found)[|found| - 1] == l;
    assert l in Lines(found);
    assert forall i :: 0 <= i < |Payload(entries)| ==> Payload(entries)[i] in Payload(entries);
  }

  /** A tree that was accepted is refused, under every trust store, once signing it
      again was cut off inside the manifest. */
  lemma AcceptedThenCutOff(entries: seq<Entry>, drawn: Uuid, content: Content, before: TrustStore, trust: TrustStore)
    requires WellNamed(entries) && Accepts(entries, before) && !Has(entries, TempName(MANIFEST_FILE, drawn))
    ensures !Accepts(WithTemp(entries, TempName(MANIFEST_FILE, drawn), content), trust)
  {
    hide Payload, WellNamed, TempName, Has, WithTemp, DocumentAt, Regular, Fits, ValidKeyId, Exact;
    var temp := TempName(MANIFEST_FILE, drawn);
    TempIsOther(drawn);
    TempKeepsDocuments(entries, temp, content, MANIFEST_FILE);
    var files := DocumentAt(entries, MANIFEST_FILE).value.manifest.files;
    LeftoverIsUnlisted(entries, MANIFEST_FILE, drawn, content, files);
  }

  /** A tree whose signing was cut off inside the signature is refused, whatever
      stood there before. */
  lemma HalfSignedThenCutOff(entries: seq<Entry>, a: Attempt, content: Content, trust: TrustStore)
    requires WellNamed(entries) && Listable(entries, a.signer, a.template, a.raw) && Writable(entries, MANIFEST_FILE)
    requires !Has(HalfSigned(entries, a.template, a.raw), TempName(SIGNATURE_FILE, a.second))
    ensures var half := HalfSigned(entries, a.template, a.raw);
      !Accepts(WithTemp(half, TempName(SIGNATURE_FILE, a.second), content), trust)
  {
    hide Payload, WellNamed, TempName, Has, WithTemp, DocumentAt, Regular, Fits, ValidKeyId, Exact, Put, TextFor;
    hide PackagePath, Size, Lines, Writable;
    var text, half := TextFor(entries, a.template, a.raw), HalfSigned(entries, a.template, a.raw);
    var temp := TempName(SIGNATURE_FILE, a.second);
    TempIsOther(a.second);
    PutIsAlike(entries, MANIFEST_FILE, text);
    PutIsFound(entries, MANIFEST_FILE, text, SIGNATURE_FILE);
    TempKeepsDocuments(half, temp, content, MANIFEST_FILE);
    assert text.ManifestText? && text.manifest.files == ListOf(entries) by { TextLists(entries, a); }
    ListIsExact(entries);
    LeftoverIsUnlisted(half, SIGNATURE_FILE, a.second, content, ListOf(entries));
  }

  /** Of an accepted tree, however a call on it ends: what is then accepted is the
      tree as it was, the new manifest under the old signature if that covers this
      very text, or the tree signed anew. It has no leftover of the call. */
  lemma AcceptedExits(entries: seq<Entry>, a: Attempt, before: TrustStore, trust: TrustStore)
    requires WellNamed(entries) && Accepts(entries, before) && Accepts(Attempted(entries, a).1, trust)
    ensures var now, text := Attempted(entries, a).1, TextFor(entries, a.template, a.raw);
      || now == entries
      || (now == HalfSigned(entries, a.template, a.raw) && SignatureOf(entries).Some?
          && SignatureOf(entries).value.over == text)
      || now == Signed(entries, a.signer, a.template, a.raw, a.encoded)
  {
    hide Accepts, WellNamed, TempName, Has, WithTemp, Listable, TextFor, EnvelopeFor, Put, Writable, Cut, SignatureOf;
    var now, text := Attempted(entries, a).1, TextFor(entries, a.template, a.raw);
    var half := HalfSigned(entries, a.template, a.raw);
    if Listable(entries, a.signer, a.template, a.raw) {
      if a.manifestHalt.Inside? && !Has(entries, TempName(MANIFEST_FILE, a.first)) {
        AcceptedThenCutOff(entries, a.first, Cut(text, a.manifestHalt.written), before, trust);
      } else if now == half {
        HalfSignedIsOldSignature(entries, a.template, a.raw, trust);
      } else if now != entries && a.signatureHalt.Inside? {
        var envelope := EnvelopeFor(a.signer, text, a.encoded);
        HalfSignedThenCutOff(entries, a, Cut(envelope, a.signatureHalt.written), trust);
      }
    }
  }

  lemma TextLists(entries: seq<Entry>, a: Attempt)
    ensures var text := TextFor(entries, a.template, a.raw);
      text.ManifestText? && text.manifest.files == ListOf(entries)
  {
  }

  // ---------------------------------------------------------------- leftovers get signed

  lemma {:induction false} SplitWhole(s: string, start: nat, k: nat)
    requires start <= k <= |s| && '/' !in s
    ensures Split(s, start, k) == [s[start..]]
    decreases |s| - k
  {
    if k < |s| {
      assert s[k] in s;
      SplitWhole(s, start, k + 1);
    }
  }

  /** The name of a temporary file is one the manifest may list. */
  lemma TempIsPackagePath(name: string, drawn: Uuid)
    requires IsDocument(name)
    ensures PackagePath(TempName(name, drawn)) && '/' !in TempName(name, drawn)
  {
    var temp := TempName(name, drawn);
    var prefix := TempPrefix(name);
    assert temp == prefix + drawn && temp[0] == '.' && |temp| <= 60;
    forall c | c in temp ensures PathChar(c) {
      if c in prefix {
        assert forall i :: 0 <= i < |prefix| ==> PathChar(prefix[i]);
      } else {
        assert c in drawn;
      }
    }
    SplitWhole(temp, 0, 0);
    assert temp[0..] == temp;
  }

  /** The call that wrote the leftover is followed by one that signs it into the
      package: with room for one more file, signing succeeds, the manifest lists
      the stray file, and the package is accepted. */
  lemma LeftoverIsSigned(entries: seq<Entry>, cut: Attempt, a: Attempt, trust: TrustStore)
    requires WellNamed(entries) && Clean(entries) && Signable(entries, cut.signer, cut.template, cut.raw)
    requires cut.manifestHalt.Inside? && a.manifestHalt == a.signatureHalt == Never && a.first != cut.first
    requires ValidKeyId(a.signer.keyId) && a.template.sound && |a.raw| <= MAX_MANIFEST_BYTES
    requires |Payload(entries)| < MAX_FILES
    requires Size(Lines(Payload(entries))) + MAX_MANIFEST_BYTES <= MAX_PACKAGE_BYTES
    requires (a.template.publisher, a.signer.keyId) in trust
    requires trust[(a.template.publisher, a.signer.keyId)] == a.signer.key
    ensures var now := Attempted(entries, cut).1;
      && !Clean(now) && Attempted(now, a).0 == Done && Accepts(Attempted(now, a).1, trust)
      && exists l :: l in ListOf(now) && l.path == TempName(MANIFEST_FILE, cut.first)
  {
    hide Payload, WellNamed, Regular, Fits, Exact, Put, Attempted, Accepts, Signed, Clean, SortedByPath, Signable;
    hide CutOff;
    var now := Attempted(entries, cut).1;
    CutOffInside(entries, cut);
    RoomForOne(entries, cut, a);
    AttemptDecides(now, a);
    SignThenVerify(now, a.signer, a.template, a.raw, a.encoded, trust);
    var temp := TempName(MANIFEST_FILE, cut.first);
    var found := Found(temp, Cut(TextFor(entries, cut.template, cut.raw), cut.manifestHalt.written));
    assert !Clean(now) by { TempIsWellNamed(entries, MANIFEST_FILE, cut.first, found.content); }
    assert found in Payload(now) by { TempIsPayload(entries, MANIFEST_FILE, cut.first, found.content); }
    StrayIsListed(now, found);
  }

  lemma StrayIsListed(entries: seq<Entry>, f: Found)
    requires f in Payload(entries)
    ensures Line(f) in ListOf(entries)
  {
    hide Payload, SortedByPath;
    SortingHolds(Payload(entries));
    var sorted := SortedByPath(Payload(entries));
    var i :| 0 <= i < |sorted| && sorted[i] == f;
    assert Lines(sorted)[i] == Line(f);
  }

  lemma RoomForOne(entries: seq<Entry>, cut: Attempt, a: Attempt)
    requires WellNamed(entries) && Clean(entries) && Signable(entries, cut.signer, cut.template, cut.raw)
    requires cut.manifestHalt.Inside? && a.first != cut.first
    requires ValidKeyId(a.signer.keyId) && a.template.sound && |a.raw| <= MAX_MANIFEST_BYTES
    requires |Payload(entries)| < MAX_FILES
    requires Size(Lines(Payload(entries))) + MAX_MANIFEST_BYTES <= MAX_PACKAGE_BYTES
    ensures var now := Attempted(entries, cut).1;
      WellNamed(now) && Signable(now, a.signer, a.template, a.raw) && Unused(now, a)
  {
    hide WellNamed, Attempted, Clean, Payload, Size, Lines, TextFor, TempName, PackagePath, ValidKeyId, Cut, Unused;
    CutOffInside(entries, cut);
    var temp := TempName(MANIFEST_FILE, cut.first);
    var content := Cut(TextFor(entries, cut.template, cut.raw), cut.manifestHalt.written);
    assert Length(content) <= MAX_MANIFEST_BYTES by { CutIsShort(entries, cut); }
    TempIsWellNamed(entries, MANIFEST_FILE, cut.first, content);
    TempIsPayload(entries, MANIFEST_FILE, cut.first, content);
    TempIsPackagePath(MANIFEST_FILE, cut.first);
    OneMoreSize(Payload(entries), Found(temp, content));
    TempIsOther(cut.first);
    StillUnused(entries, cut.first, content, a);
    var now := WithTemp(entries, temp, content);
    assert now[..|entries|] == entries && now[|entries|] == Entry(temp, File(content));
    assert Regular(now) && Writable(now, MANIFEST_FILE) && Writable(now, SIGNATURE_FILE);
    assert Length(content) <= MAX_FILE_BYTES;
  }

  lemma CutIsShort(entries: seq<Entry>, cut: Attempt)
    requires cut.manifestHalt.Inside?
    ensures Length(Cut(TextFor(entries, cut.template, cut.raw), cut.manifestHalt.written)) <= |cut.raw|
  {
  }

  lemma OneMoreSize(found: seq<Found>, f: Found)
    ensures Size(Lines(found + [f])) == Size(Lines(found)) + Length(f.content)
  {
    var all := Lines(found + [f]);
    assert all[..|found|] == Lines(found);
  }

  lemma StillUnused(entries: seq<Entry>, drawn: Uuid, content: Content, a: Attempt)
    requires Clean(entries) && a.first != drawn
    ensures Unused(WithTemp(entries, TempName(MANIFEST_FILE, drawn), content), a)
  {
    hide Clean, IsLeftover;
    CleanIsUnused(entries, a);
    var temp := TempName(MANIFEST_FILE, drawn);
    var prefix := TempPrefix(MANIFEST_FILE);
    assert temp[|prefix|..] == drawn && TempName(MANIFEST_FILE, a.first)[|prefix|..] == a.first;
    assert temp[9] == 'j' && TempName(SIGNATURE_FILE, a.second)[9] == 's';
    var tree := WithTemp(entries, temp, content);
    assert forall i :: 0 <= i < |tree| ==> tree[i].name == temp || (i < |entries| && tree[i] == entries[i]);
  }

  lemma CutOffInside(entries: seq<Entry>, cut: Attempt)
    requires WellNamed(entries) && Clean(entries) && Signable(entries, cut.signer, cut.template, cut.raw)
    requires cut.manifestHalt.Inside?
    ensures var temp, text := TempName(MANIFEST_FILE, cut.first), TextFor(entries, cut.template, cut.raw);
      && !Has(entries, temp)
      && Attempted(entries, cut) == (Stopped, WithTemp(entries, temp, Cut(text, cut.manifestHalt.written)))
  {
    hide Payload, WellNamed, Regular, Put, TextFor, EnvelopeFor, IsLeftover, TempName, Clean;
    CleanIsUnused(entries, cut);
  }
}
