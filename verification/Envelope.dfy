/** Byte formats around encrypted columns: the envelope of a sealed value and the
    associated data that binds a stored secret to its row
    (persistence-sqlite/src/field_cipher.rs, persistence-sqlite/src/secret_store.rs). */
module Envelope {
  import opened Wrappers

  type Byte = x: int | 0 <= x < 256

  type Bytes = seq<Byte>

  datatype Sealed = Sealed(keyId: Bytes, nonce: Bytes, ciphertext: Bytes)

  datatype Error = InvalidEnvelope

  const MAGIC: Bytes := [0x52, 0x46, 0x45, 0x31]
  const NONCE_LENGTH: nat := 12
  const KEY_ID_MAX: nat := 120

  // ---------------------------------------------------------------- numbers

  function Power(width: nat): nat { if width == 0 then 1 else 256 * Power(width - 1) }

  /** The last bytes of a number, most significant first. */
  function BigEndian(n: nat, width: nat): (bs: Bytes)
    ensures |bs| == width
  {
    if width == 0 then [] else BigEndian(n / 256, width - 1) + [n % 256]
  }

  function Value(bs: Bytes): nat {
    if bs == [] then 0 else 256 * Value(bs[..|bs| - 1]) + bs[|bs| - 1]
  }

  lemma {:induction false} ValueOf(n: nat, width: nat)
    requires n < Power(width)
    ensures Value(BigEndian(n, width)) == n
  {
    if width > 0 {
      var bs := BigEndian(n, width);
      assert bs[..width - 1] == BigEndian(n / 256, width - 1) && bs[width - 1] == n % 256;
      assert n / 256 < Power(width - 1);
      ValueOf(n / 256, width - 1);
      assert n == 256 * (n / 256) + n % 256;
    }
  }

  lemma {:induction false} BigEndianOf(bs: Bytes)
    ensures Value(bs) < Power(|bs|) && BigEndian(Value(bs), |bs|) == bs
  {
    if bs != [] {
      var n := |bs| - 1;
      BigEndianOf(bs[..n]);
      assert Value(bs) / 256 == Value(bs[..n]) && Value(bs) % 256 == bs[n];
      assert bs == bs[..n] + [bs[n]];
    }
  }

  // ---------------------------------------------------------------- the envelope

  predicate KeyIdByte(b: Byte) {
    0x30 <= b <= 0x39 || 0x41 <= b <= 0x5A || 0x61 <= b <= 0x7A || b == 0x2E || b == 0x2D || b == 0x5F
  }

  predicate KeyId(id: Bytes) {
    1 <= |id| <= KEY_ID_MAX && forall i :: 0 <= i < |id| ==> KeyIdByte(id[i])
  }

  predicate Valid(e: Sealed) { KeyId(e.keyId) && |e.nonce| == NONCE_LENGTH }

  function Encode(e: Sealed): Bytes {
    MAGIC + BigEndian(|e.keyId| % Power(2), 2) + e.keyId + e.nonce + e.ciphertext
  }

  function Decode(bytes: Bytes): Result<Sealed, Error> {
    if |bytes| < |MAGIC| + 2 + NONCE_LENGTH || bytes[..4] != MAGIC then Err(InvalidEnvelope)
    else
      var length := Value(bytes[4..6]);
      var nonce := 6 + length;
      var body := nonce + NONCE_LENGTH;
      if body > |bytes| || length == 0 || !KeyId(bytes[6..nonce]) then Err(InvalidEnvelope)
      else Ok(Sealed(bytes[6..nonce], bytes[nonce..body], bytes[body..]))
  }

  /** Five runs of bytes are found again by their lengths. */
  lemma Slices(a: Bytes, b: Bytes, c: Bytes, d: Bytes, e: Bytes)
    requires |a| == 4 && |b| == 2
    ensures var all, n, m := a + b + c + d + e, 6 + |c|, 6 + |c| + |d|;
      && |all| == m + |e| && all[..4] == a && all[4..6] == b && all[6..n] == c && all[n..m] == d && all[m..] == e
  {
  }

  /** Whatever was sealed can be read back. */
  lemma DecodeEncode(e: Sealed)
    requires Valid(e)
    ensures Decode(Encode(e)) == Ok(e)
  {
    hide BigEndian, Value, KeyId;
    assert |MAGIC| == 4;
    ShortId(e);
    Slices(MAGIC, BigEndian(|e.keyId|, 2), e.keyId, e.nonce, e.ciphertext);
    ValueOf(|e.keyId|, 2);
  }

  lemma ShortId(e: Sealed)
    requires Valid(e)
    ensures 1 <= |e.keyId| < Power(2) && |e.keyId| % Power(2) == |e.keyId|
  {
    assert Power(2) == 65536;
  }

  /** Only what sealing writes is accepted: one envelope has one byte form. */
  lemma EncodeDecode(bytes: Bytes)
    requires Decode(bytes).Ok?
    ensures Valid(Decode(bytes).value) && Encode(Decode(bytes).value) == bytes
  {
    hide BigEndian, Value, KeyId;
    var e := Decode(bytes).value;
    var nonce := 6 + |e.keyId|;
    BigEndianOf(bytes[4..6]);
    ShortId(e);
    var sealed := nonce + NONCE_LENGTH;
    assert bytes == bytes[..4] + bytes[4..6] + bytes[6..nonce] + bytes[nonce..sealed] + bytes[sealed..];
  }

  const CONTEXT_VERSION: Bytes :=
    [0x72, 0x75, 0x6D, 0x61, 0x68, 0x6C, 0x2D, 0x66, 0x69, 0x65, 0x6C, 0x64, 0x2D, 0x76, 0x31]

  /** The context of a sealed column. The length is cut to four bytes. */
  function ContextData(context: Bytes): Bytes {
    CONTEXT_VERSION + BigEndian(|context| % Power(4), 4) + context
  }

  /** Cut length or not, different contexts authenticate differently. */
  lemma ContextInjective(a: Bytes, b: Bytes)
    requires ContextData(a) == ContextData(b)
    ensures a == b
  {
    var n := |CONTEXT_VERSION| + 4;
    assert a == ContextData(a)[n..] && b == ContextData(b)[n..];
  }

  // ---------------------------------------------------------------- associated data

  /** A value in memory: its length fits eight bytes. */
  predicate Field(f: Bytes) { |f| < Power(8) }

  function Prefixed(f: Bytes): Bytes { BigEndian(|f|, 8) + f }

  function Fields(fs: seq<Bytes>): Bytes {
    if fs == [] then [] else Prefixed(fs[0]) + Fields(fs[1..])
  }

  /** Where one field ends is written before it, so a run of fields splits in one
      way only. */
  lemma PrefixedSplits(x: Bytes, rest: Bytes, y: Bytes, rest': Bytes)
    requires Field(x) && Field(y) && Prefixed(x) + rest == Prefixed(y) + rest'
    ensures x == y && rest == rest'
  {
    var s := Prefixed(x) + rest;
    assert s[..8] == BigEndian(|x|, 8) && s[..8] == BigEndian(|y|, 8);
    ValueOf(|x|, 8);
    ValueOf(|y|, 8);
    assert x == s[8..8 + |x|] && y == s[8..8 + |y|];
    assert rest == s[8 + |x|..] && rest' == s[8 + |y|..];
  }

  lemma {:induction false} FieldsInjective(a: seq<Bytes>, b: seq<Bytes>)
    requires (forall i :: 0 <= i < |a| ==> Field(a[i])) && (forall i :: 0 <= i < |b| ==> Field(b[i]))
    requires Fields(a) == Fields(b)
    ensures a == b
  {
    if a != [] && b != [] {
      PrefixedSplits(a[0], Fields(a[1..]), b[0], Fields(b[1..]));
      FieldsInjective(a[1..], b[1..]);
    }
  }

  datatype Binding = Binding(
    version: Bytes, secretId: Bytes, installation: Bytes, appId: Bytes, publisher: Bytes, purpose: Bytes,
    keyId: Bytes, createdAt: nat)

  function Parts(b: Binding): seq<Bytes> {
    [b.version, b.secretId, b.installation, b.appId, b.publisher, b.purpose, b.keyId, BigEndian(b.createdAt, 8)]
  }

  predicate InMemory(b: Binding) {
    b.createdAt < Power(8) && forall i :: 0 <= i < 8 ==> Field(Parts(b)[i])
  }

  function AssociatedData(b: Binding): Bytes { Fields(Parts(b)) }

  /** A ciphertext authenticates under one row only: no two bindings, whatever
      the lengths of their fields, have the same associated data. */
  lemma AssociatedDataInjective(a: Binding, b: Binding)
    requires InMemory(a) && InMemory(b) && AssociatedData(a) == AssociatedData(b)
    ensures a == b
  {
    FieldsInjective(Parts(a), Parts(b));
    assert forall i :: 0 <= i < 8 ==> Parts(a)[i] == Parts(b)[i];
    assert a.version == Parts(a)[0] && a.secretId == Parts(a)[1] && a.installation == Parts(a)[2]
      && a.appId == Parts(a)[3];
    assert a.publisher == Parts(a)[4] && a.purpose == Parts(a)[5] && a.keyId == Parts(a)[6];
    ValueOf(a.createdAt, 8);
    ValueOf(b.createdAt, 8);
  }

  // ---------------------------------------------------------------- the formats, byte for byte

  /** Letters, digits, dot, dash and underscore. */
  lemma KeyIdBytesAre(b: Byte)
    ensures var c := b as char;
      KeyIdByte(b) <==> '0' <= c <= '9' || 'A' <= c <= 'Z' || 'a' <= c <= 'z' || c == '.' || c == '-' || c == '_'
  {
  }

  /** The four letters, the length in two bytes, the key id, twelve bytes of nonce
      and the rest. */
  lemma EncodedLayout(e: Sealed)
    requires Valid(e)
    ensures var b := Encode(e); var n := |e.keyId|;
      && |b| == 18 + n + |e.ciphertext|
      && b[0] == 'R' as int && b[1] == 'F' as int && b[2] == 'E' as int && b[3] == '1' as int
      && b[4] == 0 && b[5] == n && b[6..6 + n] == e.keyId && b[6 + n..18 + n] == e.nonce && b[18 + n..] == e.ciphertext
  {
    var length := BigEndian(|e.keyId| % Power(2), 2);
    assert Power(2) == 65536;
    assert length == [0, |e.keyId|] by {
      assert BigEndian(0, 1) == [0] by { assert BigEndian(0, 0) == []; }
    }
  }

  /** What is accepted: the four letters, a key id of 1 to 120 of its bytes, and
      room for the nonce. */
  lemma DecodesExactly(b: Bytes)
    ensures Decode(b).Ok? <==>
      && |b| >= 18 && b[0] == 'R' as int && b[1] == 'F' as int && b[2] == 'E' as int && b[3] == '1' as int
      && var n := b[5];
      && b[4] == 0 && 1 <= n <= 120 && 18 + n <= |b|
      && forall i :: 6 <= i < 6 + n ==>
        var c := b[i] as char;
        '0' <= c <= '9' || 'A' <= c <= 'Z' || 'a' <= c <= 'z' || c == '.' || c == '-' || c == '_'
  {
    if |b| >= 18 {
      var high: int, n: int := b[4], b[5];
      var length := b[4..6];
      assert length[..1] == [b[4]] && Value([b[4]]) == high by { assert [b[4]][..0] == []; }
      assert Value(length) == 256 * high + n;
      assert b[..4] == MAGIC <==> b[0] == 0x52 && b[1] == 0x46 && b[2] == 0x45 && b[3] == 0x31;
      if 18 + n <= |b| {
        forall i | 6 <= i < 6 + n ensures b[i] == b[6..6 + n][i - 6] { KeyIdBytesAre(b[i]); }
      }
    }
  }

  /** The eight parts in their order, each after its length in eight bytes. */
  lemma AssociatedLayout(b: Binding)
    ensures AssociatedData(b) ==
      Prefixed(b.version) + Prefixed(b.secretId) + Prefixed(b.installation) + Prefixed(b.appId)
      + Prefixed(b.publisher) + Prefixed(b.purpose) + Prefixed(b.keyId) + Prefixed(BigEndian(b.createdAt, 8))
  {
    hide Prefixed, BigEndian;
    var p := Parts(b);
    FieldsSplit(p, 4);
    FieldsOfFour(p[..4]);
    FieldsOfFour(p[4..]);
  }

  lemma {:induction false} FieldsSplit(fs: seq<Bytes>, k: nat)
    requires k <= |fs|
    ensures Fields(fs) == Fields(fs[..k]) + Fields(fs[k..])
    decreases k
  {
    hide Prefixed;
    if k == 0 {
      assert fs[0..] == fs;
    } else {
      FieldsSplit(fs[1..], k - 1);
      assert fs[..k][1..] == fs[1..][..k - 1] && fs[1..][k - 1..] == fs[k..];
      assert Fields(fs[..k]) == Prefixed(fs[0]) + Fields(fs[1..][..k - 1]);
    }
  }

  lemma FieldsOfFour(fs: seq<Bytes>)
    requires |fs| == 4
    ensures Fields(fs) == Prefixed(fs[0]) + Prefixed(fs[1]) + Prefixed(fs[2]) + Prefixed(fs[3])
  {
    hide Prefixed;
    var a, b, c := fs[1..], fs[2..], fs[3..];
    assert a[1..] == b && b[1..] == c && c[1..] == [];
    assert Fields(c) == Prefixed(fs[3]) + Fields([]);
    assert Fields(b) == Prefixed(fs[2]) + Fields(c);
    assert Fields(a) == Prefixed(fs[1]) + Fields(b);
  }
}
