/** That sign-in, exchange and refresh go through whenever they should, and what
    each of them writes (oidc-provider/src/authorization.rs,
    oidc-provider/src/protocol.rs, persistence-sqlite/src/oidc_*.rs). */
module SignIns {
  import opened Wrappers
  import opened Scopes
  import opened Tokens
  import opened TokenRuns

  // ---------------------------------------------------------------- what a caller brings

  /** Sign-in itself, nothing twice and nothing the client is not registered for. */
  ghost predicate Grantable(scopes: seq<Scope>, registered: seq<Scope>) {
    && OpenId in scopes && (forall i, j :: 0 <= i < j < |scopes| ==> scopes[i] != scopes[j])
    && forall s :: s in scopes ==> s in registered
  }

  /** What a client may ask for or a person may consent to: no offline access. */
  ghost predicate Askable(scopes: seq<Scope>, registered: seq<Scope>) {
    Grantable(scopes, registered) && OfflineAccess !in scopes
  }

  /** A live client row, and an authorization that names it. */
  ghost predicate Names(t: Tables, c: Client, a: Authorization) {
    && c.id in t.clients && t.clients[c.id] == c && c.revokedAt.None?
    && a.client == c.id && a.installation == c.installation && a.redirect == c.redirect
    && Askable(a.scopes, c.scopes)
  }

  lemma ValidScopesAre(scopes: seq<Scope>, c: Client)
    ensures ValidScopes(c, scopes) <==> Grantable(scopes, c.scopes)
  {
    if Grantable(scopes, c.scopes) {
      var asked, held := set s | s in scopes, set s | s in c.scopes;
      DistinctSize(scopes);
      SizeAtMost(c.scopes);
      assert asked <= held;
      SubsetSize(asked, held);
    }
  }

  lemma {:induction false} DistinctSize(s: seq<Scope>)
    requires forall i, j :: 0 <= i < j < |s| ==> s[i] != s[j]
    ensures |set x | x in s| == |s|
  {
    if s != [] {
      var n := |s| - 1;
      DistinctSize(s[..n]);
      assert (set x | x in s) == (set x | x in s[..n]) + {s[n]};
    }
  }

  lemma {:induction false} SizeAtMost(s: seq<Scope>)
    ensures |set x | x in s| <= |s|
  {
    if s != [] {
      var n := |s| - 1;
      SizeAtMost(s[..n]);
      assert (set x | x in s) == (set x | x in s[..n]) + {s[n]};
    }
  }

  // ---------------------------------------------------------------- what is answered, exactly

  /** The record a caller read names a row that is live. */
  ghost predicate NamesLive(t: Tables, c: Client) {
    && c.id in t.clients && t.clients[c.id].installation == c.installation
    && t.clients[c.id].revokedAt.None? && c.revokedAt.None?
  }

  /** When a request is approved, and the only rows that change. */
  lemma ApprovesExactly(t: Tables, id: string, c: Client, user: nat, session: nat, consent: seq<Scope>, now: nat,
    raw: string, drawn: nat)
    ensures Approve(t, id, c, user, session, consent, now, raw, drawn).Some? <==>
      && NamesLive(t, c) && Askable(consent, c.scopes) && id in t.requests && Sha256(raw) !in t.codes
      && var r := t.requests[id];
      && r.consumedAt.None? && r.revokedAt.None? && now < r.expiresAt && now + 60 <= I64_MAX
      && r.auth.client == c.id && r.auth.installation == c.installation && r.auth.redirect == c.redirect
      && r.auth.user == user && r.auth.session == session
      && Grantable(r.auth.scopes, c.scopes) && (forall s :: s in r.auth.scopes ==> s in consent)
      && ((user, c.installation) in t.subjects || drawn !in t.subjects.Values)
  {
    hide ValidScopes, Grantable;
    ValidScopesAre(consent, c);
    if id in t.requests { ValidScopesAre(t.requests[id].auth.scopes, c); }
  }

  /** When a code is exchanged: once, in time, by its client, with the verifier. */
  lemma ExchangesExactly(t: Tables, raw: string, c: Client, redirect: string, verifier: string, now: nat)
    ensures Consume(t, raw, c, redirect, verifier, now).Some? <==>
      && |raw| == 43 && NamesLive(t, c) && Sha256(raw) in t.codes
      && var k := t.codes[Sha256(raw)];
      && k.consumedAt.None? && k.revokedAt.None? && now < k.expiresAt
      && k.auth.client == c.id && k.auth.installation == c.installation
      && k.auth.redirect == c.redirect && redirect == c.redirect
      && Grantable(k.auth.scopes, c.scopes) && k.auth.challenge == Sha256(verifier)
  {
    hide ValidScopes, Grantable;
    if Sha256(raw) in t.codes { ValidScopesAre(t.codes[Sha256(raw)].auth.scopes, c); }
  }

  // ---------------------------------------------------------------- one step each

  /** A request is stored, open for five minutes. */
  lemma RequestGoesThrough(s: Sys, c: Client, a: Authorization, id: string, now: nat) returns (s': Sys)
    requires Names(s.t, c, a) && id !in s.t.requests && now + 300 <= I64_MAX
    ensures Step(s, BeginRequest(c, a, id, now), s')
    ensures s' == s.(t := s.t.(requests := s.t.requests[id := Request(a, now + 300, None, None)]))
  {
    hide ValidScopes, Grantable;
    ValidScopesAre(a.scopes, c);
    s' := s.(t := s.t.(requests := s.t.requests[id := Request(a, now + 300, None, None)]));
  }

  /** Nothing keeps the person from approving the request. */
  ghost predicate Open(t: Tables, c: Client, id: string, consent: seq<Scope>, now: nat) {
    && id in t.requests && t.requests[id].consumedAt.None? && t.requests[id].revokedAt.None?
    && now < t.requests[id].expiresAt && now + 60 <= I64_MAX
    && Names(t, c, t.requests[id].auth) && Askable(consent, c.scopes)
    && forall s :: s in t.requests[id].auth.scopes ==> s in consent
  }

  /** The subject the app will see. */
  ghost predicate SubjectIs(t: Tables, user: nat, installation: nat, drawn: nat, subject: nat) {
    if (user, installation) in t.subjects then subject == t.subjects[(user, installation)]
    else subject == drawn && forall k :: k in t.subjects ==> t.subjects[k] != drawn
  }

  /** An approval stores a code for one minute, the consent as given and the
      subject, and closes the request. */
  lemma ApprovalGoesThrough(s: Sys, c: Client, id: string, consent: seq<Scope>, now: nat, raw: string, drawn: nat,
    subject: nat)
    returns (s': Sys)
    requires Open(s.t, c, id, consent, now) && Sha256(raw) !in s.t.codes
    requires SubjectIs(s.t, s.t.requests[id].auth.user, c.installation, drawn, subject)
    ensures var a := s.t.requests[id].auth;
      && Step(s, ApproveRequest(id, c, a.user, a.session, consent, now, raw, drawn), s')
      && s'.t == s.t.(
           requests := s.t.requests[id := s.t.requests[id].(consumedAt := Some(now))],
           codes := s.t.codes[Sha256(raw) := Code(a, now + 60, None, None)],
           consents := s.t.consents[(a.user, c.id) := Consent(c.installation, consent, None)],
           subjects := s.t.subjects[(a.user, c.installation) := subject])
      && s'.pending == s.pending && s'.drawn == s.drawn
  {
    hide ValidScopes;
    var a := s.t.requests[id].auth;
    ValidScopesAre(a.scopes, c);
    ValidScopesAre(consent, c);
    assert (a.user, c.installation) !in s.t.subjects ==> drawn !in s.t.subjects.Values;
    s' := s.(t := Approve(s.t, id, c, a.user, a.session, consent, now, raw, drawn).value,
             log := s.log + [Approved(id, Sha256(raw), a, consent, c.scopes, now)]);
  }

  /** The code is there, unused, and is shown by its client with the verifier of
      its challenge. */
  ghost predicate Usable(t: Tables, c: Client, raw: string, verifier: string, now: nat) {
    && |raw| == 43 && Sha256(raw) in t.codes
    && var k := t.codes[Sha256(raw)];
    && k.consumedAt.None? && k.revokedAt.None? && now < k.expiresAt && Names(t, c, k.auth)
    && k.auth.challenge == Sha256(verifier)
  }

  /** An exchange marks the code used and nothing else. */
  lemma ExchangeGoesThrough(s: Sys, c: Client, raw: string, verifier: string, now: nat) returns (s': Sys)
    requires Usable(s.t, c, raw, verifier, now)
    ensures Step(s, ConsumeCode(raw, c, c.redirect, verifier, now), s')
    ensures s' == s.(
      t := s.t.(codes := s.t.codes[Sha256(raw) := s.t.codes[Sha256(raw)].(consumedAt := Some(now))]),
      pending := s.pending[Sha256(raw) := s.t.codes[Sha256(raw)].auth])
  {
    hide ValidScopes;
    ValidScopesAre(s.t.codes[Sha256(raw)].auth.scopes, c);
    s' := s.(t := Consume(s.t, raw, c, c.redirect, verifier, now).value,
             pending := s.pending[Sha256(raw) := s.t.codes[Sha256(raw)].auth]);
  }

  /** The token carries what was approved and resolves for fifteen minutes. */
  lemma TokenGoesThrough(s: Sys, code: Digest, raw: string, now: nat, later: nat) returns (s': Sys)
    requires code in s.pending && |raw| == 43 && Sha256(raw) !in s.t.access && now + 900 <= I64_MAX
    requires var a := s.pending[code];
      && a.client in s.t.clients && s.t.clients[a.client].revokedAt.None?
      && s.t.clients[a.client].installation == a.installation && (a.user, a.installation) in s.t.subjects
    ensures Step(s, IssueToken(code, raw, now), s')
    ensures var a := s.pending[code];
      var token := Access(a.client, a.installation, a.user, a.session, s.t.subjects[(a.user, a.installation)], a.scopes,
                          None, now + 900, None);
      && s'.t == s.t.(access := s.t.access[Sha256(raw) := token])
      && ResolveAccess(s'.t, raw, later) == if later < now + 900 then Some(token) else None
  {
    var a := GrantFor(s.t, s.pending[code], now).value;
    s' := s.(t := InsertAccess(s.t, a, Sha256(raw)).value, pending := s.pending - {code},
             log := s.log + [Issued(code, Sha256(raw), a, now)]);
  }

  // ---------------------------------------------------------------- the whole way

  /** Whoever asks for what they may, with values drawn anew and each step in time,
      gets a token for exactly that. */
  lemma SignInGoesThrough(s: Sys, c: Client, a: Authorization, id: string, consent: seq<Scope>,
    drawn: nat, subject: nat, code: string, verifier: string, raw: string, times: seq<nat>)
    returns (states: seq<Sys>)
    requires Names(s.t, c, a) && id !in s.t.requests && Askable(consent, c.scopes)
    requires forall x :: x in a.scopes ==> x in consent
    requires |code| == |raw| == 43 && Sha256(code) !in s.t.codes && Sha256(raw) !in s.t.access
    requires SubjectIs(s.t, a.user, a.installation, drawn, subject) && a.challenge == Sha256(verifier)
    requires |times| == 5 && times[1] < times[0] + 300 && times[2] < times[1] + 60 && times[4] < times[3] + 900
    requires times[0] + 900 <= I64_MAX && times[1] + 900 <= I64_MAX && times[3] + 900 <= I64_MAX
    ensures |states| == 5 && states[0] == s && forall i :: 0 <= i < 4 ==> Next(states[i], states[i + 1])
    ensures ResolveAccess(states[4].t, raw, times[4]) ==
      Some(Access(a.client, a.installation, a.user, a.session, subject, a.scopes, None, times[3] + 900, None))
  {
    hide Step, Askable, Approve, ResolveAccess, Begin;
    var s1 := RequestGoesThrough(s, c, a, id, times[0]);
    var s2 := ApprovalGoesThrough(s1, c, id, consent, times[1], code, drawn, subject);
    var s3 := ExchangeGoesThrough(s2, c, code, verifier, times[2]);
    var s4 := TokenGoesThrough(s3, Sha256(code), raw, times[3], times[4]);
    states := [s, s1, s2, s3, s4];
    assert Next(s, s1) && Next(s1, s2) && Next(s2, s3) && Next(s3, s4);
  }

  // ---------------------------------------------------------------- refreshing

  /** A family is stored as given, under its client's installation. */
  lemma FamilyGoesThrough(s: Sys, id: nat, f: Family) returns (s': Sys)
    requires id !in s.t.families && f.current.raw !in s.drawn && f.generation == 0
    requires f.client in s.t.clients && s.t.clients[f.client].revokedAt.None?
    requires forall k :: k in s.t.families ==> s.t.families[k].current != f.current
    ensures Step(s, AddFamily(id, f), s')
    ensures s'.t == s.t.(families := s.t.families[id :=
      Family(f.client, s.t.clients[f.client].installation, f.user, f.session, f.current, 0, f.expiresAt, None)])
  {
    s' := s.(t := InsertFamily(s.t, id, f).value, drawn := s.drawn + {f.current.raw});
  }

  /** The family is live and its current token is this one. */
  ghost predicate Refreshable(t: Tables, id: nat, raw: string, now: nat) {
    && |raw| == 43 && id in t.families && t.families[id].current == Sha256(raw)
    && t.families[id].revokedAt.None? && now < t.families[id].expiresAt && t.families[id].generation < I64_MAX
    && t.families[id].client in t.clients && t.clients[t.families[id].client].revokedAt.None?
  }

  /** The current token turns its family to the next one; only that changes. */
  lemma RefreshGoesThrough(s: Sys, id: nat, raw: string, now: nat, next: string) returns (s': Sys)
    requires FamiliesHold(s) && Refreshable(s.t, id, raw, now) && next !in s.drawn
    ensures Step(s, Refresh(raw, now, next, Rotated(next)), s') && FamiliesHold(s')
    ensures s'.t == s.t.(
      spent := s.t.spent[Sha256(raw) := id],
      families := s.t.families[id :=
        s.t.families[id].(current := Sha256(next), generation := s.t.families[id].generation + 1)])
    ensures s'.drawn == s.drawn + {next}
  {
    hide SpentBy, NoTurnClash;
    assert FamilyHolds(s, id);
    forall k | k in s.t.families ensures s.t.families[k].current != Sha256(next) { assert FamilyHolds(s, k); }
    assert Current(s.t, Sha256(raw), id) && Turnable(s.t, id, now, next);
    s' := s.(t := Tokens.Turned(s.t, id, next), drawn := s.drawn + {next},
      log := s.log + [Event.Turned(Sha256(raw), id)]);
    assert TurnsTo(s, s', raw, next, id);
    assert Rotates(s.t, raw, now, next, Rotated(next), s'.t);
    TurnKeeps(s, s', id, next);
  }

  /** A client that keeps the newest token can go on refreshing. */
  lemma {:induction false} RefreshesGoOn(s: Sys, id: nat, raw: string, now: nat, nexts: seq<string>)
    returns (states: seq<Sys>)
    requires FamiliesHold(s) && Refreshable(s.t, id, raw, now) && s.t.families[id].generation + |nexts| <= I64_MAX
    requires forall i :: 0 <= i < |nexts| ==> |nexts[i]| == 43 && nexts[i] !in s.drawn
    requires forall i, j :: 0 <= i < j < |nexts| ==> nexts[i] != nexts[j]
    ensures |states| == |nexts| + 1 && states[0] == s
    ensures forall i :: 0 <= i < |nexts| ==> Next(states[i], states[i + 1])
    ensures var end := states[|nexts|].t;
      && id in end.families && end.families[id].generation == s.t.families[id].generation + |nexts|
      && end.families[id].current == if nexts == [] then Sha256(raw) else Sha256(nexts[|nexts| - 1])
    decreases |nexts|
  {
    hide Step, FamiliesHold;
    if nexts == [] {
      states := [s];
    } else {
      var s' := RefreshGoesThrough(s, id, raw, now, nexts[0]);
      assert Next(s, s');
      if |nexts| == 1 {
        states := [s, s'];
      } else {
        var rest := RefreshesGoOn(s', id, nexts[0], now, nexts[1..]);
        states := [s] + rest;
      }
    }
  }
}
