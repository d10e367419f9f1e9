/** What a revocation leaves alone: every answer the store gives to anyone else
    (persistence-sqlite/src/oidc_client_repository.rs,
    persistence-sqlite/src/oidc_refresh_token_store.rs,
    persistence-sqlite/src/oidc_access_token_store.rs). */
module Frames {
  import opened Wrappers
  import opened Scopes
  import opened Tokens
  import opened TokenRuns

  // ---------------------------------------------------------------- families and their clients

  /** A family's installation is its client's, so a family of another installation
      has another client. */
  predicate FamiliesOwned(t: Tables) {
    forall f :: f in t.families ==>
      t.families[f].client in t.clients && t.families[f].installation == t.clients[t.families[f].client].installation
  }

  lemma HeldFamiliesAreOwned(s: Sys)
    requires FamiliesHold(s)
    ensures FamiliesOwned(s.t)
  {
    hide SpentBy, NoTurnClash;
    forall f | f in s.t.families
      ensures s.t.families[f].client in s.t.clients
      ensures s.t.families[f].installation == s.t.clients[s.t.families[f].client].installation
    {
      assert FamilyHolds(s, f);
    }
  }

  // ---------------------------------------------------------------- answers

  ghost predicate ApprovesAlike(t: Tables, t': Tables, c: Client, session: nat) {
    forall id, user, consent, now, raw, drawn ::
      Approve(t', id, c, user, session, consent, now, raw, drawn).Some? ==
      Approve(t, id, c, user, session, consent, now, raw, drawn).Some?
  }

  ghost predicate ExchangesAlike(t: Tables, t': Tables, c: Client, raw: string) {
    forall redirect, verifier, now ::
      Consume(t', raw, c, redirect, verifier, now).Some? == Consume(t, raw, c, redirect, verifier, now).Some?
  }

  ghost predicate IssuesAlike(t: Tables, t': Tables, a: Access) {
    forall digest :: InsertAccess(t', a, digest).Some? == InsertAccess(t, a, digest).Some?
  }

  ghost predicate ResolvesAlike(t: Tables, t': Tables, raw: string) {
    forall now :: ResolveAccess(t', raw, now) == ResolveAccess(t, raw, now)
  }

  /** What presenting a refresh token answers. */
  ghost predicate Answers(t: Tables, raw: string, now: nat, next: string, r: Rotation) {
    exists u :: Rotates(t, raw, now, next, r, u)
  }

  ghost predicate TurnsAlike(t: Tables, t': Tables, raw: string) {
    forall now, next, r :: Answers(t', raw, now, next, r) == Answers(t, raw, now, next, r)
  }

  /** The refresh token is the family's, current or spent. */
  ghost predicate Concerns(t: Tables, raw: string, id: nat) {
    || (id in t.families && t.families[id].current == Sha256(raw))
    || (Sha256(raw) in t.spent && t.spent[Sha256(raw)] == id)
  }

  ghost predicate MayTurn(t: Tables, raw: string, now: nat, next: string, id: nat) {
    Current(t, Sha256(raw), id) && Turnable(t, id, now, next)
  }

  lemma AnswersAre(t: Tables, raw: string, now: nat, next: string, r: Rotation)
    ensures Answers(t, raw, now, next, r) <==>
      match r
      case Rotated(n) => n == next && |raw| == RAW_LENGTH && exists id :: MayTurn(t, raw, now, next, id)
      case ReplayRevoked =>
        |raw| == RAW_LENGTH && (forall id :: !Current(t, Sha256(raw), id)) && Sha256(raw) in t.spent
      case Invalid =>
        |raw| == RAW_LENGTH ==>
          && (forall id :: Current(t, Sha256(raw), id) ==> !MayTurn(t, raw, now, next, id))
          && (Sha256(raw) in t.spent ==> exists id :: Current(t, Sha256(raw), id))
  {
    hide Turnable, FindActive;
    match r {
      case Rotated(n) =>
        if id :| MayTurn(t, raw, now, next, id) && n == next && |raw| == RAW_LENGTH {
          assert Rotates(t, raw, now, next, r, Tokens.Turned(t, id, next));
        }
        if u :| Rotates(t, raw, now, next, r, u) {
          var id :| Current(t, Sha256(raw), id) && Turnable(t, id, now, next) && u == Tokens.Turned(t, id, next);
          assert MayTurn(t, raw, now, next, id);
        }
      case ReplayRevoked =>
        if Sha256(raw) in t.spent && |raw| == RAW_LENGTH && forall id :: !Current(t, Sha256(raw), id) {
          assert Rotates(t, raw, now, next, r, Killed(t, t.spent[Sha256(raw)], now));
        }
      case Invalid => assert Rotates(t, raw, now, next, r, t) || forall u :: !Rotates(t, raw, now, next, r, u);
    }
  }

  /** The families and clients a refresh token depends on are the same. */
  ghost predicate SameFamilies(t: Tables, t': Tables, raw: string) {
    && t'.spent == t.spent && t'.families.Keys == t.families.Keys
    && (forall id :: id in t.families ==> t'.families[id].current == t.families[id].current)
    && (forall id :: id in t.families && Concerns(t, raw, id) ==>
      t'.families[id] == t.families[id]
      && FindActive(t', t.families[id].client).Some? == FindActive(t, t.families[id].client).Some?)
  }

  lemma SameFamiliesTurn(t: Tables, t': Tables, raw: string)
    requires SameFamilies(t, t', raw)
    ensures TurnsAlike(t, t', raw)
  {
    hide Answers, FindActive;
    forall id: nat ensures Current(t', Sha256(raw), id) == Current(t, Sha256(raw), id) { }
    forall now, next, r ensures Answers(t', raw, now, next, r) == Answers(t, raw, now, next, r) {
      AnswersAre(t, raw, now, next, r);
      AnswersAre(t', raw, now, next, r);
      forall id: nat ensures MayTurn(t', raw, now, next, id) == MayTurn(t, raw, now, next, id) { }
    }
  }

  // ---------------------------------------------------------------- revoking an installation

  lemma OthersApprove(t: Tables, i: nat, at: nat, c: Client, session: nat)
    requires c.installation != i
    ensures ApprovesAlike(t, RevokedForInstallation(t, i, at), c, session)
  {
    hide ValidScopes;
  }

  lemma OthersExchange(t: Tables, i: nat, at: nat, c: Client, raw: string)
    requires c.installation != i
    ensures ExchangesAlike(t, RevokedForInstallation(t, i, at), c, raw)
  {
    hide ValidScopes;
  }

  lemma OthersIssue(t: Tables, i: nat, at: nat, a: Access)
    requires FamiliesOwned(t) && a.installation != i
    ensures IssuesAlike(t, RevokedForInstallation(t, i, at), a)
  {
  }

  lemma OthersResolve(t: Tables, i: nat, at: nat, raw: string)
    requires FamiliesOwned(t) && (Sha256(raw) in t.access ==> t.access[Sha256(raw)].installation != i)
    ensures ResolvesAlike(t, RevokedForInstallation(t, i, at), raw)
  {
  }

  lemma OthersTurn(t: Tables, i: nat, at: nat, raw: string)
    requires FamiliesOwned(t)
    requires forall id :: id in t.families && Concerns(t, raw, id) ==> t.families[id].installation != i
    ensures TurnsAlike(t, RevokedForInstallation(t, i, at), raw)
  {
    SameFamiliesTurn(t, RevokedForInstallation(t, i, at), raw);
  }

  /** In every reachable state a refresh token is current for one family at most,
      which is what rotation relies on. */
  lemma CurrentsDiffer(states: seq<Sys>, k: nat, x: nat, y: nat)
    requires Run(states) && k < |states|
    requires x in states[k].t.families && y in states[k].t.families
    ensures states[k].t.families[x].current == states[k].t.families[y].current ==> x == y
    ensures UniqueCurrents(states[k].t)
  {
    hide Run;
    RunKeepsFamilies(states, k);
  }

  /** After an installation is revoked, in any reachable state, every answer to and
      about every other installation is what it was. */
  lemma InstallationFrame(states: seq<Sys>, j: nat, m: Turn, c: Client, session: nat, raw: string, a: Access)
    requires Run(states) && j + 1 < |states| && m.RevokeInstallation? && Step(states[j], m, states[j + 1])
    ensures var t, t', i := states[j].t, states[j + 1].t, m.installation;
      && (c.installation != i ==> ApprovesAlike(t, t', c, session) && ExchangesAlike(t, t', c, raw))
      && (a.installation != i ==> IssuesAlike(t, t', a))
      && ((Sha256(raw) in t.access ==> t.access[Sha256(raw)].installation != i) ==> ResolvesAlike(t, t', raw))
      && ((forall id :: id in t.families && Concerns(t, raw, id) ==> t.families[id].installation != i) ==>
        TurnsAlike(t, t', raw))
  {
    hide Run, FamiliesHold, FamiliesOwned, ApprovesAlike, ExchangesAlike, IssuesAlike, ResolvesAlike, TurnsAlike;
    hide RevokedForInstallation, MayRevoke, Concerns;
    RunKeepsFamilies(states, j);
    HeldFamiliesAreOwned(states[j]);
    var t, i, at := states[j].t, m.installation, m.at;
    if c.installation != i {
      OthersApprove(t, i, at, c, session);
      OthersExchange(t, i, at, c, raw);
    }
    if a.installation != i { OthersIssue(t, i, at, a); }
    if Sha256(raw) in t.access ==> t.access[Sha256(raw)].installation != i { OthersResolve(t, i, at, raw); }
    if forall id :: id in t.families && Concerns(t, raw, id) ==> t.families[id].installation != i {
      OthersTurn(t, i, at, raw);
    }
  }

  // ---------------------------------------------------------------- revoking a session

  lemma OtherSessionsApprove(t: Tables, s: nat, at: nat, c: Client, session: nat)
    requires session != s
    ensures ApprovesAlike(t, RevokedForSession(t, s, at), c, session)
  {
    hide ValidScopes;
  }

  lemma OtherSessionsExchange(t: Tables, s: nat, at: nat, c: Client, raw: string)
    requires Sha256(raw) in t.codes ==> t.codes[Sha256(raw)].auth.session != s
    ensures ExchangesAlike(t, RevokedForSession(t, s, at), c, raw)
  {
    hide ValidScopes;
  }

  lemma OtherSessionsIssue(t: Tables, s: nat, at: nat, a: Access)
    requires a.session != s || a.family.None?
    ensures IssuesAlike(t, RevokedForSession(t, s, at), a)
  {
  }

  lemma OtherSessionsResolve(t: Tables, s: nat, at: nat, raw: string)
    requires Sha256(raw) in t.access ==> t.access[Sha256(raw)].session != s
    ensures ResolvesAlike(t, RevokedForSession(t, s, at), raw)
  {
  }

  lemma OtherSessionsTurn(t: Tables, s: nat, at: nat, raw: string)
    requires forall id :: id in t.families && Concerns(t, raw, id) ==> t.families[id].session != s
    ensures TurnsAlike(t, RevokedForSession(t, s, at), raw)
  {
    hide TurnsAlike;
    SameFamiliesTurn(t, RevokedForSession(t, s, at), raw);
  }

  /** After a session is revoked every answer about every other session is what it
      was. */
  lemma SessionFrame(t: Tables, s: nat, at: nat, c: Client, session: nat, raw: string, a: Access)
    ensures var t' := RevokedForSession(t, s, at);
      && (session != s ==> ApprovesAlike(t, t', c, session))
      && ((Sha256(raw) in t.codes ==> t.codes[Sha256(raw)].auth.session != s) ==> ExchangesAlike(t, t', c, raw))
      && (a.session != s ==> IssuesAlike(t, t', a))
      && ((Sha256(raw) in t.access ==> t.access[Sha256(raw)].session != s) ==> ResolvesAlike(t, t', raw))
      && ((forall id :: id in t.families && Concerns(t, raw, id) ==> t.families[id].session != s) ==>
        TurnsAlike(t, t', raw))
  {
    hide ApprovesAlike, ExchangesAlike, IssuesAlike, ResolvesAlike, TurnsAlike, RevokedForSession, Concerns;
    if session != s { OtherSessionsApprove(t, s, at, c, session); }
    if Sha256(raw) in t.codes ==> t.codes[Sha256(raw)].auth.session != s { OtherSessionsExchange(t, s, at, c, raw); }
    if a.session != s { OtherSessionsIssue(t, s, at, a); }
    if Sha256(raw) in t.access ==> t.access[Sha256(raw)].session != s { OtherSessionsResolve(t, s, at, raw); }
    if forall id :: id in t.families && Concerns(t, raw, id) ==> t.families[id].session != s {
      OtherSessionsTurn(t, s, at, raw);
    }
  }

  // ---------------------------------------------------------------- a replay and a single token

  /** After a family is killed every answer about every other family, and about
      tokens of none, is what it was. */
  lemma ReplayFrame(t: Tables, id: nat, now: nat, c: Client, session: nat, raw: string, a: Access)
    ensures var t' := Killed(t, id, now);
      && ApprovesAlike(t, t', c, session) && ExchangesAlike(t, t', c, raw)
      && (a.family != Some(id) ==> IssuesAlike(t, t', a))
      && ((Sha256(raw) in t.access ==> t.access[Sha256(raw)].family != Some(id)) ==> ResolvesAlike(t, t', raw))
      && (!Concerns(t, raw, id) ==> TurnsAlike(t, t', raw))
  {
    hide ApprovesAlike, ExchangesAlike, IssuesAlike, ResolvesAlike, TurnsAlike, Killed, Concerns;
    KilledElsewhere(t, id, now, c, session, raw);
    if a.family != Some(id) { OtherFamiliesIssue(t, id, now, a); }
    if Sha256(raw) in t.access ==> t.access[Sha256(raw)].family != Some(id) { OtherFamiliesResolve(t, id, now, raw); }
    if !Concerns(t, raw, id) { OtherFamiliesTurn(t, id, now, raw); }
  }

  lemma KilledElsewhere(t: Tables, id: nat, now: nat, c: Client, session: nat, raw: string)
    ensures ApprovesAlike(t, Killed(t, id, now), c, session) && ExchangesAlike(t, Killed(t, id, now), c, raw)
  {
    hide ValidScopes;
  }

  lemma OtherFamiliesIssue(t: Tables, id: nat, now: nat, a: Access)
    requires a.family != Some(id)
    ensures IssuesAlike(t, Killed(t, id, now), a)
  {
  }

  lemma OtherFamiliesResolve(t: Tables, id: nat, now: nat, raw: string)
    requires Sha256(raw) in t.access ==> t.access[Sha256(raw)].family != Some(id)
    ensures ResolvesAlike(t, Killed(t, id, now), raw)
  {
  }

  lemma OtherFamiliesTurn(t: Tables, id: nat, now: nat, raw: string)
    requires !Concerns(t, raw, id)
    ensures TurnsAlike(t, Killed(t, id, now), raw)
  {
    hide TurnsAlike;
    SameFamiliesTurn(t, Killed(t, id, now), raw);
  }

  /** Revoking one access token changes the answer about that token only. */
  lemma TokenFrame(t: Tables, revoked: string, now: nat, c: Client, session: nat, raw: string, a: Access)
    ensures var t' := RevokedAccess(t, revoked, now);
      && ApprovesAlike(t, t', c, session) && ExchangesAlike(t, t', c, raw) && IssuesAlike(t, t', a)
      && (raw != revoked ==> ResolvesAlike(t, t', raw))
      && (|revoked| == RAW_LENGTH ==> forall later :: ResolveAccess(t', revoked, later).None?)
      && TurnsAlike(t, t', raw)
  {
    hide ApprovesAlike, ExchangesAlike, IssuesAlike, ResolvesAlike, TurnsAlike, RevokedAccess, ResolveAccess;
    RevokedTokenElsewhere(t, revoked, now, c, session, raw, a);
    RevokedTokenHere(t, revoked, now, raw);
  }

  lemma RevokedTokenElsewhere(t: Tables, revoked: string, now: nat, c: Client, session: nat, raw: string, a: Access)
    ensures var t' := RevokedAccess(t, revoked, now);
      && ApprovesAlike(t, t', c, session) && ExchangesAlike(t, t', c, raw)
      && IssuesAlike(t, t', a) && TurnsAlike(t, t', raw)
  {
    hide ValidScopes, TurnsAlike;
    SameFamiliesTurn(t, RevokedAccess(t, revoked, now), raw);
  }

  lemma RevokedTokenHere(t: Tables, revoked: string, now: nat, raw: string)
    ensures raw != revoked ==> ResolvesAlike(t, RevokedAccess(t, revoked, now), raw)
    ensures |revoked| == RAW_LENGTH ==>
      forall later :: ResolveAccess(RevokedAccess(t, revoked, now), revoked, later).None?
  {
  }

  // ---------------------------------------------------------------- what is stamped

  /** A row that was open is stamped with the time, one that was not keeps its. */
  predicate Stamped(was: Option<nat>, now: Option<nat>, hit: bool, at: nat) {
    now == if hit && was.None? then Some(at) else was
  }

  /** Revoking an installation stamps exactly its open rows. */
  lemma InstallationStamps(t: Tables, i: nat, at: nat)
    ensures var t' := RevokedForInstallation(t, i, at);
      && t'.clients.Keys == t.clients.Keys && t'.requests.Keys == t.requests.Keys && t'.codes.Keys == t.codes.Keys
      && t'.consents.Keys == t.consents.Keys && t'.families.Keys == t.families.Keys && t'.access.Keys == t.access.Keys
      && (forall k :: k in t.clients ==>
        Stamped(t.clients[k].revokedAt, t'.clients[k].revokedAt, t.clients[k].installation == i, at))
      && (forall k :: k in t.requests ==>
        Stamped(t.requests[k].revokedAt, t'.requests[k].revokedAt, t.requests[k].auth.installation == i, at))
      && (forall k :: k in t.codes ==>
        Stamped(t.codes[k].revokedAt, t'.codes[k].revokedAt, t.codes[k].auth.installation == i, at))
      && (forall k :: k in t.consents ==>
        Stamped(t.consents[k].revokedAt, t'.consents[k].revokedAt, t.consents[k].installation == i, at))
      && (forall k :: k in t.families ==>
        Stamped(t.families[k].revokedAt, t'.families[k].revokedAt, t.families[k].installation == i, at))
      && (forall k :: k in t.access ==>
        Stamped(t.access[k].revokedAt, t'.access[k].revokedAt, t.access[k].installation == i, at))
  {
  }

  /** Revoking a session stamps exactly its open rows. */
  lemma SessionStamps(t: Tables, s: nat, at: nat)
    ensures var t' := RevokedForSession(t, s, at);
      && t'.requests.Keys == t.requests.Keys && t'.codes.Keys == t.codes.Keys
      && t'.families.Keys == t.families.Keys && t'.access.Keys == t.access.Keys
      && (forall k :: k in t.requests ==>
        Stamped(t.requests[k].revokedAt, t'.requests[k].revokedAt, t.requests[k].auth.session == s, at))
      && (forall k :: k in t.codes ==>
        Stamped(t.codes[k].revokedAt, t'.codes[k].revokedAt, t.codes[k].auth.session == s, at))
      && (forall k :: k in t.families ==>
        Stamped(t.families[k].revokedAt, t'.families[k].revokedAt, t.families[k].session == s, at))
      && (forall k :: k in t.access ==>
        Stamped(t.access[k].revokedAt, t'.access[k].revokedAt, t.access[k].session == s, at))
  {
  }

  /** A replay stamps exactly the family and the tokens it backs. */
  lemma ReplayStamps(t: Tables, id: nat, at: nat)
    ensures var t' := Killed(t, id, at);
      && t'.families.Keys == t.families.Keys && t'.access.Keys == t.access.Keys
      && (forall k :: k in t.families ==> Stamped(t.families[k].revokedAt, t'.families[k].revokedAt, k == id, at))
      && (forall k :: k in t.access ==>
        Stamped(t.access[k].revokedAt, t'.access[k].revokedAt, t.access[k].family == Some(id), at))
  {
  }

  /** An installation can be revoked at any time not before its client came. */
  lemma RevocationGoesThrough(s: Sys, i: nat, at: nat) returns (s': Sys)
    requires forall c :: c in s.t.clients && s.t.clients[c].installation == i ==> s.t.clients[c].createdAt <= at
    ensures Step(s, RevokeInstallation(i, at), s')
  {
    s' := s.(t := RevokedForInstallation(s.t, i, at));
  }

  // ---------------------------------------------------------------- what a token needs

  /** A token resolves exactly while it, its client, its subject and the family
      behind it, if there is one, are all in order. */
  lemma ResolvesExactly(t: Tables, raw: string, now: nat)
    ensures ResolveAccess(t, raw, now).Some? <==>
      && |raw| == 43 && Sha256(raw) in t.access
      && var a := t.access[Sha256(raw)];
      && a.revokedAt.None? && now < a.expiresAt
      && a.client in t.clients && t.clients[a.client].revokedAt.None?
      && t.clients[a.client].installation == a.installation
      && (a.user, a.installation) in t.subjects && t.subjects[(a.user, a.installation)] == a.subject
      && (a.family.Some? ==>
        && a.family.value in t.families
        && var f := t.families[a.family.value];
        && f.client == a.client && f.installation == a.installation && f.user == a.user && f.session == a.session
        && f.revokedAt.None? && now < f.expiresAt)
    ensures ResolveAccess(t, raw, now).Some? ==> ResolveAccess(t, raw, now).value == t.access[Sha256(raw)]
  {
  }

  // ---------------------------------------------------------------- how long tokens live

  predicate SameToken(t: Tables, t': Tables, d: Digest) {
    d in t.access ==> d in t'.access && t'.access[d].(revokedAt := None) == t.access[d].(revokedAt := None)
  }

  lemma NextKeepsToken(s: Sys, m: Turn, s': Sys, d: Digest)
    requires Step(s, m, s')
    ensures SameToken(s.t, s'.t, d)
  {
    hide Step, SameToken;
    if m.IssueToken? || m.AddFamilyAccess? || m.Refresh? {
      UseKeepsToken(s, m, s', d);
    } else {
      OtherwiseKeepsToken(s, m, s', d);
    }
  }

  lemma UseKeepsToken(s: Sys, m: Turn, s': Sys, d: Digest)
    requires Step(s, m, s') && (m.IssueToken? || m.AddFamilyAccess? || m.Refresh?)
    ensures SameToken(s.t, s'.t, d)
  {
    hide Turnable, Current;
  }

  lemma OtherwiseKeepsToken(s: Sys, m: Turn, s': Sys, d: Digest)
    requires Step(s, m, s') && !(m.IssueToken? || m.AddFamilyAccess? || m.Refresh?)
    ensures SameToken(s.t, s'.t, d)
  {
    hide Active, ValidScopes, MayRevoke, InsertFamily, InsertClient, Approvable, Consumable;
    match m {
      case AddFamily(id, f) => FamiliesOnly(s.t, id, f);
      case AddClient(c) => ClientsOnly(s.t, c.(revokedAt := None));
      case _ =>
    }
  }

  /** What was issued is in the table, revoked or not. */
  predicate Recorded(s: Sys, e: Event) {
    e.Issued? ==> e.token in s.t.access && s.t.access[e.token].(revokedAt := None) == e.access.(revokedAt := None)
  }

  lemma NextRecords(s: Sys, s': Sys)
    requires Next(s, s') && forall i :: 0 <= i < |s.log| ==> Recorded(s, s.log[i])
    ensures forall i :: 0 <= i < |s'.log| ==> Recorded(s', s'.log[i])
  {
    hide Step;
    var m :| Step(s, m, s');
    forall i | 0 <= i < |s'.log| ensures Recorded(s', s'.log[i]) {
      LogGrows(s, m, s', i);
      if i < |s.log| && s.log[i].Issued? { NextKeepsToken(s, m, s', s.log[i].token); }
    }
  }

  lemma LogGrows(s: Sys, m: Turn, s': Sys, i: nat)
    requires Step(s, m, s') && i < |s'.log|
    ensures if i < |s.log| then s'.log[i] == s.log[i] else Recorded(s', s'.log[i])
  {
    hide Rotates, RevokedForSession, RevokedForInstallation, RevokedAccess;
    hide Approvable, Consume, InsertClient, InsertFamily;
  }

  lemma {:induction false} RunRecords(states: seq<Sys>, k: nat)
    requires Run(states) && k < |states|
    ensures forall i :: 0 <= i < |states[k].log| ==> Recorded(states[k], states[k].log[i])
  {
    hide Next, Recorded;
    if k > 0 {
      RunRecords(states, k - 1);
      assert Next(states[k - 1], states[k - 1 + 1]);
      NextRecords(states[k - 1], states[k]);
    }
  }

  /** Over every run an issued token resolves, if at all, less than fifteen minutes
      after it was issued, and as what it was issued as. */
  lemma TokensLiveFifteenMinutes(states: seq<Sys>, k: nat, i: nat, raw: string, now: nat)
    requires Run(states) && k < |states| && i < |states[k].log| && states[k].log[i].Issued?
    requires states[k].log[i].token == Sha256(raw) && ResolveAccess(states[k].t, raw, now).Some?
    ensures now < states[k].log[i].at + 900
    ensures ResolveAccess(states[k].t, raw, now).value == states[k].log[i].access.(revokedAt := None)
  {
    hide Run;
    RunRecords(states, k);
    RunKeepsCodes(states, k);
    assert Recorded(states[k], states[k].log[i]) && Backed(states[k], states[k].log[i]);
  }
}
