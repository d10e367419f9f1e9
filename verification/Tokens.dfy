/** The tables behind sign-in for installed apps, and the transactions on them
    (persistence-sqlite/src/oidc_*.rs, oidc-provider/src/authorization.rs,
    oidc-provider/src/token_family.rs). A transaction either returns the new
    tables or leaves them alone. */
module Tokens {
  import opened Wrappers
  import opened Scopes

  /** Digests are ideal: equal digests come from equal values. */
  datatype Digest = Sha256(raw: string)

  datatype Client = Client(
    id: nat, installation: nat, redirect: string, scopes: seq<Scope>, createdAt: nat, revokedAt: Option<nat>)

  datatype Authorization = Authorization(
    client: nat, installation: nat, user: nat, session: nat, redirect: string, scopes: seq<Scope>, nonce: string,
    challenge: Digest)

  /** A sign-in request waiting for approval. */
  datatype Request = Request(auth: Authorization, expiresAt: nat, consumedAt: Option<nat>, revokedAt: Option<nat>)

  datatype Code = Code(auth: Authorization, expiresAt: nat, consumedAt: Option<nat>, revokedAt: Option<nat>)

  datatype Consent = Consent(installation: nat, scopes: seq<Scope>, revokedAt: Option<nat>)

  datatype Family = Family(
    client: nat, installation: nat, user: nat, session: nat, current: Digest, generation: nat, expiresAt: nat,
    revokedAt: Option<nat>)

  datatype Access = Access(
    client: nat, installation: nat, user: nat, session: nat, subject: nat, scopes: seq<Scope>, family: Option<nat>,
    expiresAt: nat, revokedAt: Option<nat>)

  datatype Tables = Tables(
    clients: map<nat, Client>,
    requests: map<string, Request>,
    codes: map<Digest, Code>,
    consents: map<(nat, nat), Consent>,
    subjects: map<(nat, nat), nat>,
    families: map<nat, Family>,
    spent: map<Digest, nat>,
    access: map<Digest, Access>)

  const REQUEST_LIFETIME: nat := 300
  const CODE_LIFETIME: nat := 60
  const TOKEN_LIFETIME: nat := 900
  const RAW_LENGTH: nat := 43
  const I64_MAX: nat := 0x7FFF_FFFF_FFFF_FFFF

  // ---------------------------------------------------------------- clients

  /** The installation column is unique, and rows are never deleted. */
  function InsertClient(t: Tables, c: Client): Option<Tables> {
    if c.id in t.clients || exists i :: i in t.clients && t.clients[i].installation == c.installation then None
    else Some(t.(clients := t.clients[c.id := c]))
  }

  function FindActive(t: Tables, id: nat): Option<Client> {
    if id in t.clients && t.clients[id].revokedAt.None? then Some(t.clients[id]) else None
  }

  /** The record a caller holds still names an active row. */
  predicate Active(t: Tables, c: Client) {
    c.id in t.clients && t.clients[c.id].installation == c.installation && t.clients[c.id].revokedAt.None?
      && c.revokedAt.None?
  }

  // ---------------------------------------------------------------- codes

  predicate ValidScopes(c: Client, scopes: seq<Scope>) {
    && OpenId in scopes && |scopes| <= |c.scopes|
    && (forall i, j :: 0 <= i < j < |scopes| ==> scopes[i] != scopes[j])
    && forall s :: s in scopes ==> s in c.scopes
  }

  predicate Within(scopes: seq<Scope>, allowed: seq<Scope>) { forall s :: s in scopes ==> s in allowed }

  function Begin(t: Tables, c: Client, a: Authorization, id: string, now: nat): Option<Tables> {
    if OfflineAccess in a.scopes || c.revokedAt.Some? || a.redirect != c.redirect || !ValidScopes(c, a.scopes) then None
    else if a.client != c.id || a.installation != c.installation then None
    else if now + REQUEST_LIFETIME > I64_MAX || id in t.requests || FindActive(t, c.id).None? then None
    else Some(t.(requests := t.requests[id := Request(a, now + REQUEST_LIFETIME, None, None)]))
  }

  /** The request as it stands can be approved by this login with this consent. */
  predicate Approvable(t: Tables, id: string, c: Client, user: nat, session: nat, consent: seq<Scope>, now: nat) {
    && ValidScopes(c, consent) && OfflineAccess !in consent && Active(t, c)
    && id in t.requests
    && var r := t.requests[id];
    && r.consumedAt.None? && r.revokedAt.None? && now < r.expiresAt
    && r.auth.client == c.id && r.auth.installation == c.installation && r.auth.redirect == c.redirect
    && ValidScopes(c, r.auth.scopes) && Within(r.auth.scopes, consent)
    && r.auth.user == user && r.auth.session == session
    && now + CODE_LIFETIME <= I64_MAX
  }

  /** The subject the app sees for this person: drawn once, then kept. */
  function SubjectFor(t: Tables, user: nat, installation: nat, drawn: nat): Option<nat> {
    if (user, installation) in t.subjects then Some(t.subjects[(user, installation)])
    else if drawn in t.subjects.Values then None
    else Some(drawn)
  }

  function Approve(t: Tables, id: string, c: Client, user: nat, session: nat, consent: seq<Scope>, now: nat,
    raw: string, drawn: nat): Option<Tables> {
    if !Approvable(t, id, c, user, session, consent, now) then None
    else
      var subject := SubjectFor(t, user, c.installation, drawn);
      if subject.None? || Sha256(raw) in t.codes then None
      else
        var r := t.requests[id];
        Some(t.(
          subjects := t.subjects[(user, c.installation) := subject.value],
          consents := t.consents[(user, c.id) := Consent(c.installation, consent, None)],
          codes := t.codes[Sha256(raw) := Code(r.auth, now + CODE_LIFETIME, None, None)],
          requests := t.requests[id := r.(consumedAt := Some(now))]))
  }

  predicate Consumable(t: Tables, raw: string, c: Client, redirect: string, verifier: string, now: nat) {
    && |raw| == RAW_LENGTH && Active(t, c) && Sha256(raw) in t.codes
    && var k := t.codes[Sha256(raw)];
    && k.consumedAt.None? && k.revokedAt.None? && now < k.expiresAt
    && k.auth.client == c.id && k.auth.installation == c.installation && k.auth.redirect == c.redirect == redirect
    && ValidScopes(c, k.auth.scopes)
    && k.auth.challenge == Sha256(verifier)
  }

  function Consume(t: Tables, raw: string, c: Client, redirect: string, verifier: string, now: nat): Option<Tables> {
    if !Consumable(t, raw, c, redirect, verifier, now) then None
    else Some(t.(codes := t.codes[Sha256(raw) := t.codes[Sha256(raw)].(consumedAt := Some(now))]))
  }

  // ---------------------------------------------------------------- access tokens

  predicate FamilyBacks(t: Tables, a: Access) {
    a.family.Some? ==>
      && a.family.value in t.families
      && var f := t.families[a.family.value];
      f.client == a.client && f.user == a.user && f.session == a.session && f.revokedAt.None?
  }

  function InsertAccess(t: Tables, a: Access, digest: Digest): Option<Tables> {
    if digest in t.access || FindActive(t, a.client).None? then None
    else if t.clients[a.client].installation != a.installation then None
    else if (a.user, a.installation) !in t.subjects || t.subjects[(a.user, a.installation)] != a.subject then None
    else if !FamilyBacks(t, a) || a.expiresAt > I64_MAX then None
    else Some(t.(access := t.access[digest := a.(revokedAt := None)]))
  }

  predicate FamilyOpen(f: Family, a: Access, now: nat) { f.installation == a.installation && now < f.expiresAt }

  function ResolveAccess(t: Tables, raw: string, now: nat): Option<Access> {
    if |raw| != RAW_LENGTH || Sha256(raw) !in t.access then None
    else
      var a := t.access[Sha256(raw)];
      if a.revokedAt.Some? || now >= a.expiresAt || FindActive(t, a.client).None? then None
      else if t.clients[a.client].installation != a.installation then None
      else if (a.user, a.installation) !in t.subjects || t.subjects[(a.user, a.installation)] != a.subject then None
      else if !FamilyBacks(t, a) || (a.family.Some? && !FamilyOpen(t.families[a.family.value], a, now)) then None
      else Some(a)
  }

  // ---------------------------------------------------------------- refresh families

  function InsertFamily(t: Tables, id: nat, f: Family): Option<Tables> {
    if id in t.families || FindActive(t, f.client).None? then None
    else if f.generation > I64_MAX || exists i :: i in t.families && t.families[i].current == f.current then None
    else
      var row := f.(installation := t.clients[f.client].installation, revokedAt := None);
      Some(t.(families := t.families[id := row]))
  }

  datatype Rotation = Rotated(next: string) | ReplayRevoked | Invalid

  /** The family whose current token this is, if its client is active. */
  ghost predicate Current(t: Tables, digest: Digest, id: nat) {
    id in t.families && t.families[id].current == digest && FindActive(t, t.families[id].client).Some?
  }

  /** No two families have the same current token: the column is unique. */
  predicate UniqueCurrents(t: Tables) {
    forall x, y :: x in t.families && y in t.families && x != y ==> t.families[x].current != t.families[y].current
  }

  /** A revocation keeps an earlier one's time. */
  function RevokedIf(hit: bool, revokedAt: Option<nat>, now: nat): Option<nat> {
    if hit && revokedAt.None? then Some(now) else revokedAt
  }

  /** Turning a family to its next token. */
  function Turned(t: Tables, id: nat, next: string): Tables
    requires id in t.families
  {
    var f := t.families[id];
    t.(spent := t.spent[f.current := id],
       families := t.families[id := f.(current := Sha256(next), generation := f.generation + 1)])
  }

  /** Killing a family and every access token it backs. */
  function Killed(t: Tables, id: nat, now: nat): Tables {
    t.(families := map k | k in t.families :: var f := t.families[k];
         f.(revokedAt := RevokedIf(k == id, f.revokedAt, now)),
       access := map d | d in t.access :: var a := t.access[d];
         a.(revokedAt := RevokedIf(a.family == Some(id), a.revokedAt, now)))
  }

  /** A turn the tables accept: not revoked, not expired, no key taken. */
  ghost predicate Turnable(t: Tables, id: nat, now: nat, next: string)
    requires id in t.families
  {
    var f := t.families[id];
    && f.revokedAt.None? && now < f.expiresAt && f.generation < I64_MAX
    && f.current !in t.spent && forall i :: i in t.families ==> t.families[i].current != Sha256(next)
  }

  /** What presenting a refresh token may do. */
  ghost predicate Rotates(t: Tables, raw: string, now: nat, next: string, r: Rotation, t': Tables) {
    match r
    case Rotated(n) =>
      && n == next && |raw| == RAW_LENGTH
      && exists id :: Current(t, Sha256(raw), id) && Turnable(t, id, now, next) && t' == Turned(t, id, next)
    case ReplayRevoked =>
      && |raw| == RAW_LENGTH && (forall id :: !Current(t, Sha256(raw), id)) && Sha256(raw) in t.spent
      && t' == Killed(t, t.spent[Sha256(raw)], now)
    case Invalid =>
      && t' == t
      && (|raw| == RAW_LENGTH ==>
            && (forall id :: Current(t, Sha256(raw), id) ==> !Turnable(t, id, now, next))
            && (Sha256(raw) in t.spent ==> exists id :: Current(t, Sha256(raw), id)))
  }

  // ---------------------------------------------------------------- revocation

  function RevokedForSession(t: Tables, session: nat, now: nat): Tables {
    t.(requests := map k | k in t.requests :: var r := t.requests[k];
         r.(revokedAt := RevokedIf(r.auth.session == session, r.revokedAt, now)),
       codes := map k | k in t.codes :: var r := t.codes[k];
         r.(revokedAt := RevokedIf(r.auth.session == session, r.revokedAt, now)),
       families := map k | k in t.families :: var r := t.families[k];
         r.(revokedAt := RevokedIf(r.session == session, r.revokedAt, now)),
       access := map k | k in t.access :: var r := t.access[k];
         r.(revokedAt := RevokedIf(r.session == session, r.revokedAt, now)))
  }

  /** A row may not be revoked before it was created. */
  predicate MayRevoke(t: Tables, installation: nat, at: nat) {
    forall i :: i in t.clients && t.clients[i].installation == installation && t.clients[i].revokedAt.None? ==>
      t.clients[i].createdAt <= at
  }

  function RevokedForInstallation(t: Tables, i: nat, at: nat): Tables {
    t.(clients := map k | k in t.clients :: var r := t.clients[k];
         r.(revokedAt := RevokedIf(r.installation == i, r.revokedAt, at)),
       requests := map k | k in t.requests :: var r := t.requests[k];
         r.(revokedAt := RevokedIf(r.auth.installation == i, r.revokedAt, at)),
       codes := map k | k in t.codes :: var r := t.codes[k];
         r.(revokedAt := RevokedIf(r.auth.installation == i, r.revokedAt, at)),
       consents := map k | k in t.consents :: var r := t.consents[k];
         r.(revokedAt := RevokedIf(r.installation == i, r.revokedAt, at)),
       families := map k | k in t.families :: var r := t.families[k];
         r.(revokedAt := RevokedIf(r.installation == i, r.revokedAt, at)),
       access := map k | k in t.access :: var r := t.access[k];
         r.(revokedAt := RevokedIf(r.installation == i, r.revokedAt, at)))
  }

  function RevokedAccess(t: Tables, raw: string, now: nat): Tables {
    if |raw| != RAW_LENGTH || Sha256(raw) !in t.access then t
    else
      var a := t.access[Sha256(raw)];
      t.(access := t.access[Sha256(raw) := a.(revokedAt := RevokedIf(true, a.revokedAt, now))])
  }

  // ---------------------------------------------------------------- the store

  class Store {
    var clients: map<nat, Client>
    var requests: map<string, Request>
    var codes: map<Digest, Code>
    var consents: map<(nat, nat), Consent>
    var subjects: map<(nat, nat), nat>
    var families: map<nat, Family>
    var spent: map<Digest, nat>
    var access: map<Digest, Access>

    function View(): Tables
      reads this
    {
      Tables(clients, requests, codes, consents, subjects, families, spent, access)
    }

    /** The family whose current token this is, if its client is active. */
    method FindCurrent(digest: Digest) returns (found: Option<nat>)
      requires UniqueCurrents(View())
      ensures found.Some? ==> Current(View(), digest, found.value)
      ensures forall id: nat :: Current(View(), digest, id) ==> found == Some(id)
    {
      var rest := families.Keys;
      while rest != {}
        invariant rest <= families.Keys
        invariant forall id :: id in families && id !in rest ==> !Current(View(), digest, id)
        decreases rest
      {
        var id :| id in rest;
        var f := families[id];
        if f.current == digest && f.client in clients && clients[f.client].revokedAt.None? {
          assert Current(View(), digest, id);
          return Some(id);
        }
        rest := rest - {id};
      }
      return None;
    }

    /** Rotation: match the current token first, then look for a replay. The
        caller supplies the random next token. */
    method Rotate(raw: string, now: nat, next: string) returns (r: Rotation)
      requires UniqueCurrents(View())
      modifies this
      ensures Rotates(old(View()), raw, now, next, r, View()) && UniqueCurrents(View())
    {
      if |raw| != RAW_LENGTH { return Invalid; }
      var digest := Sha256(raw);
      var found := FindCurrent(digest);
      if found.Some? {
        var id, f := found.value, families[found.value];
        if f.revokedAt.Some? || now >= f.expiresAt || f.generation >= I64_MAX { return Invalid; }
        if f.current in spent || exists i :: i in families && families[i].current == Sha256(next) { return Invalid; }
        assert Turnable(View(), id, now, next);
        spent := spent[f.current := id];
        families := families[id := f.(current := Sha256(next), generation := f.generation + 1)];
        return Rotated(next);
      }
      if digest !in spent { return Invalid; }
      Kill(spent[digest], now);
      return ReplayRevoked;
    }

    method Kill(id: nat, now: nat)
      modifies this`families, this`access
      ensures View() == Killed(old(View()), id, now)
    {
      if id in families && families[id].revokedAt.None? {
        families := families[id := families[id].(revokedAt := Some(now))];
      }
      access := map d | d in access :: var a := access[d]; a.(revokedAt := RevokedIf(a.family == Some(id),
        a.revokedAt, now));
      assert families == Killed(old(View()), id, now).families;
    }

    /** One transaction over four tables, in the order they are written; a
        refusal anywhere leaves all of them as they were. */
    method ApproveTransaction(id: string, c: Client, user: nat, session: nat, consent: seq<Scope>, now: nat,
      raw: string, drawn: nat) returns (ok: bool)
      modifies this
      ensures ok <==> Approve(old(View()), id, c, user, session, consent, now, raw, drawn).Some?
      ensures var next := Approve(old(View()), id, c, user, session, consent, now, raw, drawn);
        View() == if ok && next.Some? then next.value else old(View())
    {
      hide ValidScopes, Within, Active;
      if !ValidScopes(c, consent) || OfflineAccess in consent || !Active(View(), c) { return false; }
      if id !in requests || requests[id].consumedAt.Some? || requests[id].revokedAt.Some? { return false; }
      var r := requests[id];
      if r.auth.client != c.id { return false; }
      if r.auth.installation != c.installation || r.auth.redirect != c.redirect { return false; }
      if !ValidScopes(c, r.auth.scopes) || now >= r.expiresAt { return false; }
      if r.auth.user != user || r.auth.session != session { return false; }
      if !Within(r.auth.scopes, consent) || now + CODE_LIFETIME > I64_MAX { return false; }
      if Sha256(raw) in codes { return false; }
      if (user, c.installation) !in subjects {
        if drawn in subjects.Values { return false; }
        subjects := subjects[(user, c.installation) := drawn];
      }
      consents := consents[(user, c.id) := Consent(c.installation, consent, None)];
      codes := codes[Sha256(raw) := Code(r.auth, now + CODE_LIFETIME, None, None)];
      requests := requests[id := r.(consumedAt := Some(now))];
      return true;
    }
  }
}
