/** What revoking a session stops and what it does not. The store revokes the
    session's rows; an exchange that consumed its code before may still insert
    its token afterwards (persistence-sqlite/src/oidc_refresh_token_store.rs,
    oidc-provider/src/protocol.rs). */
module Sessions {
  import opened Wrappers
  import opened Scopes
  import opened Tokens
  import opened TokenRuns

  // ---------------------------------------------------------------- rows revoked stay revoked

  predicate RequestDead(t: Tables, id: string) { id in t.requests && t.requests[id].revokedAt.Some? }

  predicate CodeDead(t: Tables, d: Digest) { d in t.codes && t.codes[d].revokedAt.Some? }

  predicate AccessDead(t: Tables, d: Digest) { d in t.access && t.access[d].revokedAt.Some? }

  lemma NextKeepsCodeDead(s: Sys, s': Sys, d: Digest, id: string)
    requires Next(s, s')
    ensures CodeDead(s.t, d) ==> CodeDead(s'.t, d)
    ensures RequestDead(s.t, id) ==> RequestDead(s'.t, id)
  {
    hide Step;
    var m :| Step(s, m, s');
    if m.BeginRequest? || m.ApproveRequest? || m.ConsumeCode? {
      CodeDeadThroughUse(s, m, s', d, id);
    } else if m.RevokeSession? || m.RevokeInstallation? {
      CodeDeadThroughRevocation(s, m, s', d, id);
    } else {
      CodesUntouched(s, m, s');
    }
  }

  lemma CodeDeadThroughUse(s: Sys, m: Turn, s': Sys, d: Digest, id: string)
    requires Step(s, m, s') && (m.BeginRequest? || m.ApproveRequest? || m.ConsumeCode?)
    ensures CodeDead(s.t, d) ==> CodeDead(s'.t, d)
    ensures RequestDead(s.t, id) ==> RequestDead(s'.t, id)
  {
    hide Active, ValidScopes;
  }

  lemma CodeDeadThroughRevocation(s: Sys, m: Turn, s': Sys, d: Digest, id: string)
    requires Step(s, m, s') && (m.RevokeSession? || m.RevokeInstallation?)
    ensures CodeDead(s.t, d) ==> CodeDead(s'.t, d)
    ensures RequestDead(s.t, id) ==> RequestDead(s'.t, id)
  {
    hide MayRevoke;
  }

  lemma NextKeepsAccessDead(s: Sys, s': Sys, d: Digest)
    requires AccessDead(s.t, d) && Next(s, s')
    ensures AccessDead(s'.t, d)
  {
    hide Step;
    var m :| Step(s, m, s');
    if m.IssueToken? || m.AddFamilyAccess? || m.Refresh? {
      AccessDeadThroughUse(s, m, s', d);
    } else {
      AccessDeadElsewhere(s, m, s', d);
    }
  }

  lemma AccessDeadThroughUse(s: Sys, m: Turn, s': Sys, d: Digest)
    requires AccessDead(s.t, d) && Step(s, m, s') && (m.IssueToken? || m.AddFamilyAccess? || m.Refresh?)
    ensures AccessDead(s'.t, d)
  {
    hide Turnable, Current;
  }

  lemma AccessDeadElsewhere(s: Sys, m: Turn, s': Sys, d: Digest)
    requires AccessDead(s.t, d) && Step(s, m, s') && !(m.IssueToken? || m.AddFamilyAccess? || m.Refresh?)
    ensures AccessDead(s'.t, d)
  {
    hide Active, ValidScopes, MayRevoke, InsertFamily, InsertClient, Approvable, Consumable;
    match m {
      case AddFamily(id, f) => FamiliesOnly(s.t, id, f);
      case AddClient(c) => ClientsOnly(s.t, c.(revokedAt := None));
      case _ =>
    }
  }

  lemma {:induction false} DeadRowsStay(states: seq<Sys>, j: nat, k: nat, d: Digest, id: string)
    requires Run(states) && j <= k < |states|
    ensures CodeDead(states[j].t, d) ==> CodeDead(states[k].t, d)
    ensures AccessDead(states[j].t, d) ==> AccessDead(states[k].t, d)
    ensures RequestDead(states[j].t, id) ==> RequestDead(states[k].t, id)
    decreases k
  {
    hide Next, CodeDead, AccessDead, RequestDead;
    if j < k {
      DeadRowsStay(states, j, k - 1, d, id);
      assert Next(states[k - 1], states[k - 1 + 1]);
      NextKeepsCodeDead(states[k - 1], states[k], d, id);
      if AccessDead(states[k - 1].t, d) { NextKeepsAccessDead(states[k - 1], states[k], d); }
    }
  }

  // ---------------------------------------------------------------- what the session had

  ghost predicate NeverApproved(t: Tables, id: string) {
    forall c, user, session, consent, now, raw, drawn ::
      Approve(t, id, c, user, session, consent, now, raw, drawn).None?
  }

  ghost predicate NeverExchanged(t: Tables, d: Digest) {
    forall raw, c, redirect, verifier, now :: Sha256(raw) == d ==> Consume(t, raw, c, redirect, verifier, now).None?
  }

  ghost predicate NeverResolved(t: Tables, d: Digest) {
    forall raw, now :: Sha256(raw) == d ==> ResolveAccess(t, raw, now).None?
  }

  lemma DeadIsRefused(t: Tables, d: Digest, id: string)
    ensures RequestDead(t, id) ==> NeverApproved(t, id)
    ensures CodeDead(t, d) ==> NeverExchanged(t, d)
    ensures AccessDead(t, d) ==> NeverResolved(t, d)
  {
    hide Active, ValidScopes;
  }

  /** Every request, code, access token and family the session had when it was
      revoked is refused in every continuation. */
  lemma SessionRevocationIsFinal(states: seq<Sys>, j: nat, k: nat, m: Turn, id: string, d: Digest, family: nat)
    requires Run(states) && j < k < |states| && m.RevokeSession? && Step(states[j], m, states[j + 1])
    ensures id in states[j].t.requests && states[j].t.requests[id].auth.session == m.session ==>
      NeverApproved(states[k].t, id)
    ensures d in states[j].t.codes && states[j].t.codes[d].auth.session == m.session ==> NeverExchanged(states[k].t, d)
    ensures d in states[j].t.access && states[j].t.access[d].session == m.session ==> NeverResolved(states[k].t, d)
    ensures family in states[j].t.families && states[j].t.families[family].session == m.session ==>
      Lifeless(states[k].t, family)
  {
    hide Run, NeverApproved, NeverExchanged, NeverResolved, Lifeless;
    DeadRowsStay(states, j + 1, k, d, id);
    DeadIsRefused(states[k].t, d, id);
    if family in states[j].t.families && states[j].t.families[family].session == m.session {
      DeadStays(states, j + 1, k, family);
      DeadFamilyRefuses(states[k].t, family);
    }
  }

  // ---------------------------------------------------------------- what it did not have yet

  /** The call starts something new for the session. */
  predicate Opens(m: Turn, session: nat) {
    || (m.BeginRequest? && m.auth.session == session)
    || (m.AddFamily? && m.f.session == session)
    || (m.AddFamilyAccess? && m.a.session == session)
  }

  ghost predicate Calm(s: Sys, s': Sys, session: nat) { exists m :: Step(s, m, s') && !Opens(m, session) }

  ghost predicate CalmRun(states: seq<Sys>, j: nat, k: nat, session: nat) {
    k < |states| && forall i :: j <= i < k ==> Calm(states[i], states[i + 1], session)
  }

  /** The codes of the session that exchanges under way have consumed. */
  function InHand(s: Sys, session: nat): map<Digest, Authorization> {
    map d | d in s.pending && s.pending[d].session == session :: s.pending[d]
  }

  /** The token was issued for a code in hand. */
  predicate IssuedFrom(e: Event, token: Digest, access: Access, held: map<Digest, Authorization>) {
    && e.Issued? && e.token == token && e.access == access.(revokedAt := None)
    && e.code in held && Matches(access, held[e.code])
  }

  predicate IssuedInHand(s: Sys, token: Digest, held: map<Digest, Authorization>)
    requires token in s.t.access
  {
    exists i :: 0 <= i < |s.log| && IssuedFrom(s.log[i], token, s.t.access[token], held)
  }

  /** After the revocation: every row of the session is dead but tokens issued for
      codes that were in hand. */
  predicate Closed(s: Sys, session: nat, held: map<Digest, Authorization>) {
    && (forall r :: r in s.t.requests && s.t.requests[r].auth.session == session ==> s.t.requests[r].revokedAt.Some?)
    && (forall d :: d in s.t.codes && s.t.codes[d].auth.session == session ==> s.t.codes[d].revokedAt.Some?)
    && (forall f :: f in s.t.families && s.t.families[f].session == session ==> s.t.families[f].revokedAt.Some?)
    && (forall d :: d in s.pending && s.pending[d].session == session ==> d in held && held[d] == s.pending[d])
    && (forall d :: d in s.t.access && s.t.access[d].session == session && s.t.access[d].revokedAt.None? ==>
      IssuedInHand(s, d, held))
  }

  lemma RevocationCloses(s: Sys, m: Turn, s': Sys)
    requires m.RevokeSession? && Step(s, m, s')
    ensures Closed(s', m.session, InHand(s, m.session)) && s'.pending == s.pending
  {
  }

  /** No row of the session came or came back to life. */
  predicate Settles(s: Sys, s': Sys, session: nat) {
    SettlesCodes(s, s', session) && SettlesTokens(s, s', session)
  }

  predicate SettlesCodes(s: Sys, s': Sys, session: nat) {
    && (forall r :: r in s'.t.requests && s'.t.requests[r].auth.session == session ==> SameRequest(s.t, s'.t, r))
    && (forall d :: d in s'.t.codes && s'.t.codes[d].auth.session == session ==> SameCode(s.t, s'.t, d))
    && (forall d :: d in s'.pending && s'.pending[d].session == session ==>
      d in s.pending && s.pending[d] == s'.pending[d])
  }

  predicate SettlesTokens(s: Sys, s': Sys, session: nat) {
    && s.log <= s'.log
    && (forall f :: f in s'.t.families && s'.t.families[f].session == session ==> SameFamily(s.t, s'.t, f))
    && (forall d :: d in s'.t.access && s'.t.access[d].session == session ==> SameAccess(s.t, s'.t, d))
  }

  predicate SameRequest(t: Tables, t': Tables, r: string)
    requires r in t'.requests
  {
    && r in t.requests && t.requests[r].auth == t'.requests[r].auth
    && (t.requests[r].revokedAt.Some? ==> t'.requests[r].revokedAt.Some?)
  }

  predicate SameCode(t: Tables, t': Tables, d: Digest)
    requires d in t'.codes
  {
    d in t.codes && t.codes[d].auth == t'.codes[d].auth && (t.codes[d].revokedAt.Some? ==> t'.codes[d].revokedAt.Some?)
  }

  predicate SameFamily(t: Tables, t': Tables, f: nat)
    requires f in t'.families
  {
    && f in t.families && t.families[f].session == t'.families[f].session
    && (t.families[f].revokedAt.Some? ==> t'.families[f].revokedAt.Some?)
  }

  predicate SameAccess(t: Tables, t': Tables, d: Digest)
    requires d in t'.access
  {
    && d in t.access && t.access[d].(revokedAt := None) == t'.access[d].(revokedAt := None)
    && (t.access[d].revokedAt.Some? ==> t'.access[d].revokedAt.Some?)
  }

  lemma SettlingKeeps(s: Sys, s': Sys, session: nat, held: map<Digest, Authorization>)
    requires Closed(s, session, held) && Settles(s, s', session)
    ensures Closed(s', session, held)
  {
    forall d | d in s'.t.access && s'.t.access[d].session == session && s'.t.access[d].revokedAt.None?
      ensures IssuedInHand(s', d, held)
    {
      assert SameAccess(s.t, s'.t, d) && IssuedInHand(s, d, held);
      var i :| 0 <= i < |s.log| && IssuedFrom(s.log[i], d, s.t.access[d], held);
      assert s'.log[i] == s.log[i] && IssuedFrom(s'.log[i], d, s'.t.access[d], held);
    }
  }

  lemma BeginSettles(s: Sys, m: Turn, s': Sys, session: nat)
    requires Step(s, m, s') && !Opens(m, session) && m.BeginRequest?
    ensures Settles(s, s', session)
  {
    hide ValidScopes, FindActive;
  }

  lemma CodeUseSettles(s: Sys, m: Turn, s': Sys, session: nat, held: map<Digest, Authorization>)
    requires Step(s, m, s') && Closed(s, session, held) && (m.ApproveRequest? || m.ConsumeCode?)
    ensures Settles(s, s', session)
  {
    hide ValidScopes, Active, IssuedInHand, SubjectFor, FindActive;
  }

  lemma FamilyUseSettles(s: Sys, m: Turn, s': Sys, session: nat)
    requires Step(s, m, s') && !Opens(m, session) && (m.AddFamily? || m.AddFamilyAccess?)
    ensures Settles(s, s', session)
  {
    hide FamilyBacks, FindActive;
  }

  lemma RefreshSettles(s: Sys, m: Turn, s': Sys, session: nat)
    requires Step(s, m, s') && m.Refresh?
    ensures Settles(s, s', session)
  {
    hide Turnable, FindActive;
  }

  lemma OtherSettles(s: Sys, m: Turn, s': Sys, session: nat)
    requires Step(s, m, s') && (m.AddClient? || m.Abandon? || m.RevokeToken?)
    ensures Settles(s, s', session)
  {
    hide FindActive;
  }

  lemma SessionSettlesCodes(s: Sys, m: Turn, s': Sys, session: nat)
    requires Step(s, m, s') && m.RevokeSession?
    ensures SettlesCodes(s, s', session)
  {
  }

  lemma SessionSettlesTokens(s: Sys, m: Turn, s': Sys, session: nat)
    requires Step(s, m, s') && m.RevokeSession?
    ensures SettlesTokens(s, s', session)
  {
  }

  lemma InstallationSettlesCodes(s: Sys, m: Turn, s': Sys, session: nat)
    requires Step(s, m, s') && m.RevokeInstallation?
    ensures SettlesCodes(s, s', session)
  {
    hide MayRevoke;
  }

  lemma InstallationSettlesTokens(s: Sys, m: Turn, s': Sys, session: nat)
    requires Step(s, m, s') && m.RevokeInstallation?
    ensures SettlesTokens(s, s', session)
  {
    hide MayRevoke;
  }

  lemma CalmSettles(s: Sys, m: Turn, s': Sys, session: nat, held: map<Digest, Authorization>)
    requires Step(s, m, s') && !Opens(m, session) && Closed(s, session, held) && !m.IssueToken?
    ensures Settles(s, s', session)
  {
    hide Step, Closed, SettlesCodes, SettlesTokens;
    if m.RevokeSession? {
      SessionSettlesCodes(s, m, s', session);
      SessionSettlesTokens(s, m, s', session);
    } else if m.RevokeInstallation? {
      InstallationSettlesCodes(s, m, s', session);
      InstallationSettlesTokens(s, m, s', session);
    } else if m.Refresh? {
      RefreshSettles(s, m, s', session);
    } else if m.AddFamily? || m.AddFamilyAccess? {
      FamilyUseSettles(s, m, s', session);
    } else if m.BeginRequest? {
      BeginSettles(s, m, s', session);
    } else if m.ApproveRequest? || m.ConsumeCode? {
      CodeUseSettles(s, m, s', session, held);
    } else {
      OtherSettles(s, m, s', session);
    }
  }

  lemma IssuingKeeps(s: Sys, m: Turn, s': Sys, session: nat, held: map<Digest, Authorization>)
    requires Closed(s, session, held) && m.IssueToken? && Step(s, m, s')
    ensures Closed(s', session, held)
  {
    var a := GrantFor(s.t, s.pending[m.code], m.now).value;
    forall d | d in s'.t.access && s'.t.access[d].session == session && s'.t.access[d].revokedAt.None?
      ensures IssuedInHand(s', d, held)
    {
      if d == Sha256(m.raw) {
        assert s'.log[|s.log|] == Issued(m.code, d, a, m.now);
        assert IssuedFrom(s'.log[|s.log|], d, s'.t.access[d], held);
      } else {
        assert IssuedInHand(s, d, held);
        var i :| 0 <= i < |s.log| && IssuedFrom(s.log[i], d, s.t.access[d], held);
        assert s'.log[i] == s.log[i];
      }
    }
  }

  lemma CalmKeepsClosed(s: Sys, s': Sys, session: nat, held: map<Digest, Authorization>)
    requires Closed(s, session, held) && Calm(s, s', session)
    ensures Closed(s', session, held)
  {
    hide Step, Closed, Settles;
    var m :| Step(s, m, s') && !Opens(m, session);
    if m.IssueToken? {
      IssuingKeeps(s, m, s', session, held);
    } else {
      CalmSettles(s, m, s', session, held);
      SettlingKeeps(s, s', session, held);
    }
  }

  lemma {:induction false} StaysClosed(states: seq<Sys>, j: nat, k: nat, session: nat, held: map<Digest, Authorization>)
    requires j <= k && CalmRun(states, j, k, session) && Closed(states[j], session, held)
    ensures Closed(states[k], session, held)
    decreases k
  {
    hide Calm, Closed;
    if j < k {
      StaysClosed(states, j, k - 1, session, held);
      assert Calm(states[k - 1], states[k - 1 + 1], session);
      CalmKeepsClosed(states[k - 1], states[k], session, held);
    }
  }

  // ---------------------------------------------------------------- exchanges under way

  /** The client and the subject a code was approved for are there. */
  predicate Bound(t: Tables, a: Authorization) {
    && a.client in t.clients && t.clients[a.client].installation == a.installation
    && (a.user, a.installation) in t.subjects
  }

  predicate Owned(s: Sys) {
    && (forall d :: d in s.t.codes ==> Bound(s.t, s.t.codes[d].auth))
    && (forall d :: d in s.pending ==> Bound(s.t, s.pending[d]))
  }

  lemma NextKeepsOwned(s: Sys, s': Sys)
    requires SubjectsDiffer(s.t) && Owned(s) && Next(s, s')
    ensures Owned(s')
  {
    hide Step, SubjectsDiffer;
    NextGrowsClients(s, s');
    NextKeepsSubjects(s, s');
    var m :| Step(s, m, s');
    if m.ApproveRequest? || m.ConsumeCode? || m.IssueToken? {
      ExchangeKeepsOwned(s, m, s');
    } else {
      IsQuiet(s, m, s');
    }
  }

  lemma ExchangeKeepsOwned(s: Sys, m: Turn, s': Sys)
    requires Owned(s) && Step(s, m, s') && (m.ApproveRequest? || m.ConsumeCode? || m.IssueToken?)
    requires ClientsGrow(s.t, s'.t) && SubjectsKept(s.t, s'.t)
    ensures Owned(s')
  {
    hide ValidScopes;
  }

  lemma {:induction false} RunKeepsOwned(states: seq<Sys>, k: nat)
    requires Run(states) && k < |states|
    ensures Owned(states[k])
  {
    hide Next;
    if k > 0 {
      RunKeepsOwned(states, k - 1);
      RunKeepsSubjects(states, k - 1);
      assert Next(states[k - 1], states[k - 1 + 1]);
      NextKeepsOwned(states[k - 1], states[k]);
    }
  }

  lemma {:induction false} ClientsOnlyGrow(states: seq<Sys>, j: nat, k: nat, client: nat)
    requires Run(states) && j <= k < |states| && client in states[j].t.clients
    ensures FindActive(states[k].t, client).Some? ==> FindActive(states[j].t, client).Some?
    ensures client in states[k].t.clients
    decreases k
  {
    hide Next;
    if j < k {
      ClientsOnlyGrow(states, j, k - 1, client);
      assert Next(states[k - 1], states[k - 1 + 1]);
      NextGrowsClients(states[k - 1], states[k]);
    }
  }

  /** An exchange for the session has consumed its code, not yet issued its
      token, and its client is active. */
  predicate ExchangeOpen(s: Sys, session: nat) {
    exists d :: d in s.pending && s.pending[d].session == session && FindActive(s.t, s.pending[d].client).Some?
  }

  predicate Resolves(t: Tables, raw: string, now: nat, session: nat) {
    var a := ResolveAccess(t, raw, now);
    a.Some? && a.value.session == session
  }

  ghost predicate SomeResolves(t: Tables, session: nat) { exists raw, now :: Resolves(t, raw, now, session) }

  lemma OutlivesOnlyIfOpen(states: seq<Sys>, j: nat, k: nat, m: Turn, raw: string, now: nat)
    requires Run(states) && j < k < |states| && m.RevokeSession? && Step(states[j], m, states[j + 1])
    requires CalmRun(states, j + 1, k, m.session) && Resolves(states[k].t, raw, now, m.session)
    ensures ExchangeOpen(states[j], m.session)
  {
    hide Run, CalmRun, Step;
    var held := InHand(states[j], m.session);
    RevocationCloses(states[j], m, states[j + 1]);
    StaysClosed(states, j + 1, k, m.session, held);
    var a := states[k].t.access[Sha256(raw)];
    assert IssuedInHand(states[k], Sha256(raw), held);
    var i :| 0 <= i < |states[k].log| && IssuedFrom(states[k].log[i], Sha256(raw), a, held);
    RunKeepsOwned(states, j);
    ClientsOnlyGrow(states, j, k, a.client);
    var d := states[k].log[i].code;
    assert d in states[j].pending && states[j].pending[d].client == a.client;
  }

  /** The exchange issues its token, and the token resolves. */
  lemma OpenExchangeIssues(s: Sys, d: Digest, raw: string, now: nat) returns (s': Sys)
    requires Owned(s) && d in s.pending && FindActive(s.t, s.pending[d].client).Some?
    requires |raw| == RAW_LENGTH && Sha256(raw) !in s.t.access && now + TOKEN_LIFETIME <= I64_MAX
    ensures Step(s, IssueToken(d, raw, now), s') && Resolves(s'.t, raw, now, s.pending[d].session)
  {
    assert Bound(s.t, s.pending[d]);
    var a := GrantFor(s.t, s.pending[d], now).value;
    s' := s.(t := InsertAccess(s.t, a, Sha256(raw)).value, pending := s.pending - {d},
             log := s.log + [Issued(d, Sha256(raw), a, now)]);
  }

  /** The run goes on, starting nothing new for the session, until a token of the
      session resolves. */
  ghost predicate OutlivedBy(states: seq<Sys>, more: seq<Sys>, session: nat)
    requires states != []
  {
    var all := states + more;
    && Run(all) && CalmRun(all, |states| - 1, |all| - 1, session)
    && SomeResolves(all[|all| - 1].t, session)
  }

  /** After a session was revoked, and with nothing new started for it, a token of
      it can still come to resolve exactly when an exchange for it was under way.
      `raw` is any value not used for a token yet. */
  lemma SessionOutlivesRevocation(states: seq<Sys>, m: Turn, raw: string, now: nat)
    requires Run(states) && |states| >= 2 && m.RevokeSession? && Step(states[|states| - 2], m, states[|states| - 1])
    requires |raw| == RAW_LENGTH && Sha256(raw) !in states[|states| - 1].t.access && now + TOKEN_LIFETIME <= I64_MAX
    ensures (exists more :: OutlivedBy(states, more, m.session)) <==> ExchangeOpen(states[|states| - 2], m.session)
  {
    hide Step;
    var j := |states| - 2;
    if more :| OutlivedBy(states, more, m.session) {
      var all := states + more;
      var r, n :| Resolves(all[|all| - 1].t, r, n, m.session);
      assert all[j] == states[j] && all[j + 1] == states[j + 1];
      OutlivesOnlyIfOpen(all, j, |all| - 1, m, r, n);
    }
    if ExchangeOpen(states[j], m.session) {
      OpenIsEnough(states, m, raw, now);
    }
  }

  lemma OpenIsEnough(states: seq<Sys>, m: Turn, raw: string, now: nat)
    requires Run(states) && |states| >= 2 && m.RevokeSession? && Step(states[|states| - 2], m, states[|states| - 1])
    requires |raw| == RAW_LENGTH && Sha256(raw) !in states[|states| - 1].t.access && now + TOKEN_LIFETIME <= I64_MAX
    requires ExchangeOpen(states[|states| - 2], m.session)
    ensures exists more :: OutlivedBy(states, more, m.session)
  {
    var before, s := states[|states| - 2], states[|states| - 1];
    assert s.pending == before.pending && s.t.clients == before.t.clients;
    var d :|
      && d in before.pending && before.pending[d].session == m.session
      && FindActive(before.t, before.pending[d].client).Some?;
    RunKeepsOwned(states, |states| - 1);
    var s' := OpenExchangeIssues(s, d, raw, now);
    Extends(states, s', IssueToken(d, raw, now), m.session);
    assert (states + [s'])[|states|] == s';
    assert OutlivedBy(states, [s'], m.session);
  }

  lemma Extends(states: seq<Sys>, s': Sys, m: Turn, session: nat)
    requires Run(states) && Step(states[|states| - 1], m, s') && !Opens(m, session)
    ensures Run(states + [s']) && CalmRun(states + [s'], |states| - 1, |states|, session)
  {
    hide Step;
    var all := states + [s'];
    assert Next(states[|states| - 1], s') && Calm(states[|states| - 1], s', session);
    forall i | 0 <= i < |all| - 1 ensures Next(all[i], all[i + 1]) {
      if i < |states| - 1 { assert Next(states[i], states[i + 1]); }
    }
  }

  /** Meanwhile no request of the session is approved, no code of it is exchanged
      and no refresh token of it is turned. */
  lemma SessionStaysClosed(states: seq<Sys>, j: nat, k: nat, m: Turn, id: string, d: Digest, family: nat)
    requires Run(states) && j < k < |states| && m.RevokeSession? && Step(states[j], m, states[j + 1])
    requires CalmRun(states, j + 1, k, m.session)
    ensures id in states[k].t.requests && states[k].t.requests[id].auth.session == m.session ==>
      NeverApproved(states[k].t, id)
    ensures d in states[k].t.codes && states[k].t.codes[d].auth.session == m.session ==> NeverExchanged(states[k].t, d)
    ensures family in states[k].t.families && states[k].t.families[family].session == m.session ==>
      Lifeless(states[k].t, family)
  {
    hide Run, Step, CalmRun, NeverApproved, NeverExchanged, NeverResolved, Lifeless;
    RevocationCloses(states[j], m, states[j + 1]);
    StaysClosed(states, j + 1, k, m.session, InHand(states[j], m.session));
    DeadIsRefused(states[k].t, d, id);
    if family in states[k].t.families && states[k].t.families[family].session == m.session {
      DeadFamilyRefuses(states[k].t, family);
    }
  }

  // ---------------------------------------------------------------- a run where it happens

  const CODE := "cccccccccccccccccccccccccccccccccccccccccc0"
  const TOKEN := "cccccccccccccccccccccccccccccccccccccccccc1"
  const APP := Client(0, 1, "https://app", [OpenId], 0, None)
  const AUTH := Authorization(0, 1, 2, 3, "https://app", [OpenId], "nonce", Sha256("verifier"))
  const EMPTY := Tables(map[], map[], map[], map[], map[], map[], map[], map[])

  lemma RequestIsApproved(s: Sys) returns (s': Sys)
    requires s.t == EMPTY.(clients := map[0 := APP], requests := map["r" := Request(AUTH, 300, None, None)])
    requires s.pending == map[] && s.log == []
    ensures Next(s, s') && s'.t.codes == map[Sha256(CODE) := Code(AUTH, 60, None, None)] && s'.t.clients == s.t.clients
    ensures s'.t.access == map[] && s'.pending == map[]
  {
    var m := ApproveRequest("r", APP, 2, 3, [OpenId], 0, CODE, 7);
    assert ValidScopes(APP, [OpenId]);
    assert Approve(s.t, "r", APP, 2, 3, [OpenId], 0, CODE, 7).Some?;
    s' := s.(t := Approve(s.t, "r", APP, 2, 3, [OpenId], 0, CODE, 7).value,
             log := [Approved("r", Sha256(CODE), AUTH, [OpenId], [OpenId], 0)]);
    assert Step(s, m, s');
  }

  lemma CodeIsConsumed(s: Sys) returns (s': Sys)
    requires s.t.codes == map[Sha256(CODE) := Code(AUTH, 60, None, None)] && s.t.clients == map[0 := APP]
    ensures Next(s, s') && s'.pending == s.pending[Sha256(CODE) := AUTH] && s'.t.clients == s.t.clients
      && s'.t.access == s.t.access
  {
    var m := ConsumeCode(CODE, APP, "https://app", "verifier", 1);
    assert ValidScopes(APP, [OpenId]);
    s' := s.(t := Consume(s.t, CODE, APP, "https://app", "verifier", 1).value,
      pending := s.pending[Sha256(CODE) := AUTH]);
    assert Step(s, m, s');
  }

  /** One sign-in up to the point where its code is consumed. */
  lemma SignIn() returns (states: seq<Sys>)
    ensures |states| == 5 && Run(states)
    ensures states[4].t.access == map[] && states[4].t.clients == map[0 := APP]
      && states[4].pending == map[Sha256(CODE) := AUTH]
  {
    var s0 := Sys(EMPTY, map[], {}, []);
    var s1 := s0.(t := EMPTY.(clients := map[0 := APP]));
    assert Step(s0, AddClient(APP), s1);
    var s2 := s1.(t := s1.t.(requests := map["r" := Request(AUTH, 300, None, None)]));
    assert Step(s1, BeginRequest(APP, AUTH, "r", 0), s2) by { assert ValidScopes(APP, [OpenId]); }
    var s3 := RequestIsApproved(s2);
    var s4 := CodeIsConsumed(s3);
    states := [s0, s1, s2, s3, s4];
    assert Next(s0, s1) && Next(s1, s2);
  }

  /** A session revoked between the two steps of an exchange: the token is issued
      afterwards all the same, and resolves. */
  lemma RevokedSessionOutlives() returns (states: seq<Sys>)
    ensures |states| == 7 && Run(states) && Step(states[4], RevokeSession(3, 2), states[5])
    ensures Resolves(states[6].t, TOKEN, 3, 3)
  {
    var first := SignIn();
    var s := first[4];
    var s5 := s.(t := RevokedForSession(s.t, 3, 2));
    Extends(first, s5, RevokeSession(3, 2), 0);
    RunKeepsOwned(first + [s5], 5);
    var s6 := OpenExchangeIssues(s5, Sha256(CODE), TOKEN, 3);
    Extends(first + [s5], s6, IssueToken(Sha256(CODE), TOKEN, 3), 0);
    states := first + [s5] + [s6];
    assert states[4] == s && states[5] == s5 && states[6] == s6;
  }
}
