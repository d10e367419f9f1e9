/** What any interleaving of sign-in, exchange, refresh and revocation keeps
    (oidc-provider/src/protocol.rs over the token stores). An exchange is two
    steps, consuming the code and inserting the access token; any other call, or
    a crash, may come between. */
module TokenRuns {
  import opened Wrappers
  import opened Scopes
  import opened Tokens

  datatype Event =
    | Approved(request: string, code: Digest, auth: Authorization, consent: seq<Scope>, registered: seq<Scope>, at: nat)
    | Issued(code: Digest, token: Digest, access: Access, at: nat)
    | Turned(token: Digest, family: nat)

  /** The tables, the codes consumed by exchanges still under way, every random
      value drawn so far, and what happened. */
  datatype Sys = Sys(t: Tables, pending: map<Digest, Authorization>, drawn: set<string>, log: seq<Event>)

  datatype Turn =
    | AddClient(c: Client)
    | BeginRequest(c: Client, auth: Authorization, id: string, now: nat)
    | ApproveRequest(id: string, c: Client, user: nat, session: nat, consent: seq<Scope>, now: nat, raw: string,
      drawn: nat)
    | ConsumeCode(raw: string, c: Client, redirect: string, verifier: string, now: nat)
    | IssueToken(code: Digest, raw: string, now: nat)
    | Abandon(code: Digest)
    | AddFamily(family: nat, f: Family)
    | AddFamilyAccess(a: Access, raw: string)
    | Refresh(raw: string, now: nat, next: string, r: Rotation)
    | RevokeSession(session: nat, now: nat)
    | RevokeInstallation(installation: nat, at: nat)
    | RevokeToken(raw: string, now: nat)

  /** The record is what some lookup returned: rows change only by revocation. */
  predicate Known(t: Tables, c: Client) {
    c.id in t.clients && c == t.clients[c.id].(revokedAt := None)
  }

  function Stored(s: Sys, next: Option<Tables>): Option<Sys> {
    if next.None? then None else Some(s.(t := next.value))
  }

  /** The grant an exchange issues for the code it consumed. */
  function GrantFor(t: Tables, a: Authorization, now: nat): Option<Access> {
    if (a.user, a.installation) !in t.subjects then None
    else Some(Access(a.client, a.installation, a.user, a.session, t.subjects[(a.user, a.installation)], a.scopes,
      None, now + TOKEN_LIFETIME, None))
  }

  ghost predicate Step(s: Sys, m: Turn, s': Sys) {
    match m
    case AddClient(c) => Some(s') == Stored(s, InsertClient(s.t, c.(revokedAt := None)))
    case BeginRequest(c, auth, id, now) => Known(s.t, c) && Some(s') == Stored(s, Begin(s.t, c, auth, id, now))
    case ApproveRequest(id, c, user, session, consent, now, raw, drawn) =>
      && Known(s.t, c) && Approve(s.t, id, c, user, session, consent, now, raw, drawn).Some?
      && s' == s.(t := Approve(s.t, id, c, user, session, consent, now, raw, drawn).value,
                  log := s.log + [Approved(id, Sha256(raw), s.t.requests[id].auth, consent, c.scopes, now)])
    case ConsumeCode(raw, c, redirect, verifier, now) =>
      && Known(s.t, c) && Consume(s.t, raw, c, redirect, verifier, now).Some?
      && s' == s.(t := Consume(s.t, raw, c, redirect, verifier, now).value,
                  pending := s.pending[Sha256(raw) := s.t.codes[Sha256(raw)].auth])
    case IssueToken(code, raw, now) =>
      && code in s.pending && GrantFor(s.t, s.pending[code], now).Some?
      && var a := GrantFor(s.t, s.pending[code], now).value;
      && InsertAccess(s.t, a, Sha256(raw)).Some?
      && s' == s.(t := InsertAccess(s.t, a, Sha256(raw)).value, pending := s.pending - {code},
                  log := s.log + [Issued(code, Sha256(raw), a, now)])
    case Abandon(code) => s' == s.(pending := s.pending - {code})
    case AddFamily(id, f) =>
      && f.current.raw !in s.drawn && f.generation == 0 && InsertFamily(s.t, id, f).Some?
      && s' == s.(t := InsertFamily(s.t, id, f).value, drawn := s.drawn + {f.current.raw})
    case AddFamilyAccess(a, raw) => a.family.Some? && Some(s') == Stored(s, InsertAccess(s.t, a, Sha256(raw)))
    case Refresh(raw, now, next, r) =>
      && next !in s.drawn && Rotates(s.t, raw, now, next, r, s'.t)
      && s' == s.(t := s'.t, drawn := s.drawn + {next}, log := s'.log)
      && if r.Rotated? then exists id :: TurnsTo(s, s', raw, next, id) else s'.log == s.log
    case RevokeSession(session, now) => s' == s.(t := RevokedForSession(s.t, session, now))
    case RevokeInstallation(i, at) => MayRevoke(s.t, i, at) && s' == s.(t := RevokedForInstallation(s.t, i, at))
    case RevokeToken(raw, now) => s' == s.(t := RevokedAccess(s.t, raw, now))
  }

  ghost predicate TurnsTo(s: Sys, s': Sys, raw: string, next: string, id: nat) {
    && Current(s.t, Sha256(raw), id) && s'.t == Tokens.Turned(s.t, id, next)
    && s'.log == s.log + [Event.Turned(Sha256(raw), id)]
  }

  ghost predicate Run(states: seq<Sys>) {
    && states != [] && Starts(states[0])
    && forall i :: 0 <= i < |states| - 1 ==> Next(states[i], states[i + 1])
  }

  ghost predicate Next(s: Sys, s': Sys) { exists m :: Step(s, m, s') }

  predicate Starts(s: Sys) {
    s == Sys(Tables(map[], map[], map[], map[], map[], map[], map[], map[]), map[], {}, [])
  }

  // ---------------------------------------------------------------- codes are used once

  /** What the log says of a request or a code, the tables still show. */
  predicate Backed(s: Sys, e: Event) {
    match e
    case Approved(request, code, auth, consent, registered, at) =>
      && request in s.t.requests && s.t.requests[request].consumedAt.Some?
      && code in s.t.codes && s.t.codes[code].auth == auth && s.t.codes[code].expiresAt == at + CODE_LIFETIME
      && Within(auth.scopes, consent) && Within(auth.scopes, registered) && OfflineAccess !in auth.scopes
    case Issued(code, token, access, at) =>
      && code in s.t.codes && s.t.codes[code].consumedAt.Some? && code !in s.pending
      && Matches(access, s.t.codes[code].auth) && access.expiresAt == at + TOKEN_LIFETIME
    case Turned(_, _) => true
  }

  predicate Matches(a: Access, auth: Authorization) {
    a.client == auth.client && a.installation == auth.installation && a.user == auth.user
      && a.session == auth.session && a.scopes == auth.scopes
  }

  /** Two events that may not both be there. */
  predicate CodeClash(e: Event, f: Event) {
    || (e.Approved? && f.Approved? && (e.request == f.request || e.code == f.code))
    || (e.Issued? && f.Issued? && e.code == f.code)
  }

  predicate NoCodeClash(log: seq<Event>) {
    forall i, j :: 0 <= i < j < |log| ==> !CodeClash(log[i], log[j])
  }

  predicate HasApproval(log: seq<Event>, code: Digest, auth: Authorization) {
    exists i :: 0 <= i < |log| && log[i].Approved? && log[i].code == code && log[i].auth == auth
  }

  predicate HasIssued(log: seq<Event>, code: Digest) {
    exists i :: 0 <= i < |log| && log[i].Issued? && log[i].code == code
  }

  predicate PendingHolds(s: Sys, d: Digest)
    requires d in s.pending
  {
    d in s.t.codes && s.t.codes[d].consumedAt.Some? && s.pending[d] == s.t.codes[d].auth && !HasIssued(s.log, d)
  }

  predicate CodesHold(s: Sys) {
    && NoCodeClash(s.log)
    && (forall i :: 0 <= i < |s.log| ==> Backed(s, s.log[i]))
    && (forall d :: d in s.t.codes ==> HasApproval(s.log, d, s.t.codes[d].auth))
    && (forall d :: d in s.pending ==> PendingHolds(s, d))
    && (forall r :: r in s.t.requests ==> OfflineAccess !in s.t.requests[r].auth.scopes)
  }

  /** A step that approves, consumes and issues nothing. */
  predicate Quiet(s: Sys, s': Sys) {
    && s.log <= s'.log && (forall i :: |s.log| <= i < |s'.log| ==> s'.log[i].Turned?)
    && (forall d :: d in s'.pending ==> d in s.pending && s'.pending[d] == s.pending[d])
    && s'.t.codes.Keys == s.t.codes.Keys
    && (forall d :: d in s.t.codes ==> s'.t.codes[d].(revokedAt := None) == s.t.codes[d].(revokedAt := None))
    && (forall r :: r in s.t.requests ==>
      r in s'.t.requests && s'.t.requests[r].(revokedAt := None) == s.t.requests[r].(revokedAt := None))
    && (forall r :: r in s'.t.requests && r !in s.t.requests ==> OfflineAccess !in s'.t.requests[r].auth.scopes)
  }

  lemma QuietKeeps(s: Sys, s': Sys)
    requires CodesHold(s) && Quiet(s, s')
    ensures CodesHold(s')
  {
    forall i | 0 <= i < |s'.log| ensures Backed(s', s'.log[i]) {
      if i < |s.log| { assert Backed(s, s.log[i]); }
    }
    forall d | d in s'.t.codes ensures HasApproval(s'.log, d, s'.t.codes[d].auth) {
      assert HasApproval(s.log, d, s.t.codes[d].auth);
      var i :| 0 <= i < |s.log| && s.log[i].Approved? && s.log[i].code == d && s.log[i].auth == s.t.codes[d].auth;
      assert s'.log[i] == s.log[i];
    }
    forall d | d in s'.pending ensures PendingHolds(s', d) {
      assert PendingHolds(s, d);
    }
  }

  lemma IsQuiet(s: Sys, m: Turn, s': Sys)
    requires Step(s, m, s') && !m.ApproveRequest? && !m.ConsumeCode? && !m.IssueToken?
    ensures Quiet(s, s')
  {
    hide Active, Approvable, ValidScopes, InsertAccess, InsertClient, InsertFamily, MayRevoke, RevokedForSession;
    hide RevokedForInstallation;
    match m {
      case Refresh(raw, now, next, r) => RefreshIsQuiet(s, m, s');
      case AddFamilyAccess(a, raw) => AccessOnly(s.t, a, Sha256(raw));
      case AddClient(c) => ClientsOnly(s.t, c.(revokedAt := None));
      case AddFamily(id, f) => FamiliesOnly(s.t, id, f);
      case RevokeToken(_, _) =>
      case RevokeSession(_, _) => SessionIsQuiet(s, m, s');
      case RevokeInstallation(_, _) => InstallationIsQuiet(s, m, s');
      case _ =>
    }
  }

  lemma SessionIsQuiet(s: Sys, m: Turn, s': Sys)
    requires m.RevokeSession? && Step(s, m, s')
    ensures Quiet(s, s')
  {
  }

  lemma InstallationIsQuiet(s: Sys, m: Turn, s': Sys)
    requires m.RevokeInstallation? && Step(s, m, s')
    ensures Quiet(s, s')
  {
    hide MayRevoke;
  }

  lemma AccessOnly(t: Tables, a: Access, d: Digest)
    ensures var t' := InsertAccess(t, a, d); t'.Some? ==> t'.value == t.(access := t'.value.access)
  {
  }

  lemma ClientsOnly(t: Tables, c: Client)
    ensures var t' := InsertClient(t, c); t'.Some? ==> t'.value == t.(clients := t'.value.clients)
  {
  }

  lemma FamiliesOnly(t: Tables, id: nat, f: Family)
    ensures var t' := InsertFamily(t, id, f); t'.Some? ==> t'.value == t.(families := t'.value.families)
  {
  }

  lemma RefreshIsQuiet(s: Sys, m: Turn, s': Sys)
    requires m.Refresh? && Step(s, m, s')
    ensures Quiet(s, s')
  {
    hide Turnable, Current;
    assert s'.t.codes == s.t.codes && s'.t.requests == s.t.requests;
  }

  /** What one more event asks for. */
  lemma Logged(s: Sys, s': Sys, e: Event)
    requires CodesHold(s) && s'.log == s.log + [e] && Backed(s', e)
    requires forall i :: 0 <= i < |s.log| ==> Backed(s', s.log[i]) && !CodeClash(s.log[i], e)
    requires forall d :: d in s'.t.codes ==>
      (d in s.t.codes && s'.t.codes[d].auth == s.t.codes[d].auth) || (e.Approved? && e.code == d
        && e.auth == s'.t.codes[d].auth)
    requires forall d :: d in s'.pending ==>
      d in s.pending && s'.pending[d] == s.pending[d] && d in s'.t.codes && s'.t.codes[d] == s.t.codes[d]
    requires forall d :: d in s'.pending ==> !(e.Issued? && e.code == d)
    requires forall r :: r in s'.t.requests ==> r in s.t.requests && s'.t.requests[r].auth == s.t.requests[r].auth
    ensures CodesHold(s')
  {
    hide Backed, CodeClash, HasApproval, HasIssued;
    var n := |s.log|;
    forall i, j | 0 <= i < j < |s'.log| ensures !CodeClash(s'.log[i], s'.log[j]) {
      if j < n { assert s'.log[i] == s.log[i] && s'.log[j] == s.log[j]; } else { assert s'.log[i] == s.log[i]; }
    }
    forall i | 0 <= i < |s'.log| ensures Backed(s', s'.log[i]) {
      if i < n { assert s'.log[i] == s.log[i]; }
    }
    forall d | d in s'.t.codes ensures HasApproval(s'.log, d, s'.t.codes[d].auth) {
      if e.Approved? && e.code == d && e.auth == s'.t.codes[d].auth {
        LastApproves(s.log, e);
      } else {
        Grown(s.log, e, d, s.t.codes[d].auth);
      }
    }
    forall d | d in s'.pending ensures PendingHolds(s', d) {
      assert PendingHolds(s, d);
      NotIssuedYet(s.log, e, d);
    }
  }

  lemma LastApproves(log: seq<Event>, e: Event)
    requires e.Approved?
    ensures HasApproval(log + [e], e.code, e.auth)
  {
    assert (log + [e])[|log|] == e;
  }

  lemma NotIssuedYet(log: seq<Event>, e: Event, d: Digest)
    ensures HasIssued(log + [e], d) ==> HasIssued(log, d) || (e.Issued? && e.code == d)
  {
  }

  lemma ApproveLogs(s: Sys, m: Turn, s': Sys)
    requires CodesHold(s) && m.ApproveRequest? && Step(s, m, s')
    ensures var e := Approved(m.id, Sha256(m.raw), s.t.requests[m.id].auth, m.consent, m.c.scopes, m.now);
      && Backed(s', e)
      && forall i :: 0 <= i < |s.log| ==> Backed(s', s.log[i]) && !CodeClash(s.log[i], e)
  {
    hide Active;
    var e := Approved(m.id, Sha256(m.raw), s.t.requests[m.id].auth, m.consent, m.c.scopes, m.now);
    forall i | 0 <= i < |s.log| ensures Backed(s', s.log[i]) && !CodeClash(s.log[i], e) {
      assert Backed(s, s.log[i]);
    }
  }

  lemma ApproveKeeps(s: Sys, m: Turn, s': Sys)
    requires CodesHold(s) && m.ApproveRequest? && Step(s, m, s')
    ensures CodesHold(s')
  {
    hide Active, ValidScopes, Backed, CodesHold, CodeClash;
    ApproveLogs(s, m, s');
    PendingHasCodes(s);
    Logged(s, s', Approved(m.id, Sha256(m.raw), s.t.requests[m.id].auth, m.consent, m.c.scopes, m.now));
  }

  lemma PendingHasCodes(s: Sys)
    requires CodesHold(s)
    ensures forall d :: d in s.pending ==> PendingHolds(s, d)
  {
  }

  lemma Grown(log: seq<Event>, e: Event, d: Digest, auth: Authorization)
    requires HasApproval(log, d, auth)
    ensures HasApproval(log + [e], d, auth)
  {
    var i :| 0 <= i < |log| && log[i].Approved? && log[i].code == d && log[i].auth == auth;
    assert (log + [e])[i] == log[i];
  }

  lemma ConsumeKeeps(s: Sys, m: Turn, s': Sys)
    requires CodesHold(s) && m.ConsumeCode? && Step(s, m, s')
    ensures CodesHold(s')
  {
    hide Active, ValidScopes;
    var code := Sha256(m.raw);
    forall i | 0 <= i < |s.log| ensures Backed(s', s.log[i]) && !(s.log[i].Issued? && s.log[i].code == code) {
      assert Backed(s, s.log[i]);
    }
    forall d | d in s'.pending ensures PendingHolds(s', d) {
      if d != code { assert PendingHolds(s, d); }
    }
  }

  lemma IssueLogs(s: Sys, m: Turn, s': Sys, a: Access)
    requires CodesHold(s) && m.IssueToken? && m.code in s.pending && GrantFor(s.t, s.pending[m.code], m.now) == Some(a)
    requires s' == s.(t := s.t.(access := s'.t.access), pending := s.pending - {m.code}, log := s'.log)
    ensures var e := Issued(m.code, Sha256(m.raw), a, m.now);
      && Backed(s', e)
      && forall i :: 0 <= i < |s.log| ==> Backed(s', s.log[i]) && !CodeClash(s.log[i], e)
  {
    hide NoCodeClash, HasApproval;
    assert PendingHolds(s, m.code);
    forall i | 0 <= i < |s.log|
      ensures Backed(s', s.log[i]) && !CodeClash(s.log[i], Issued(m.code, Sha256(m.raw), a, m.now))
    {
      assert Backed(s, s.log[i]);
    }
  }

  lemma IssueKeeps(s: Sys, m: Turn, s': Sys)
    requires CodesHold(s) && m.IssueToken? && Step(s, m, s')
    ensures CodesHold(s')
  {
    hide InsertAccess, GrantFor, Backed, CodesHold, CodeClash;
    var a := GrantFor(s.t, s.pending[m.code], m.now).value;
    AccessOnly(s.t, a, Sha256(m.raw));
    IssueLogs(s, m, s', a);
    PendingHasCodes(s);
    Logged(s, s', Issued(m.code, Sha256(m.raw), a, m.now));
  }

  lemma NextKeepsCodes(s: Sys, s': Sys)
    requires CodesHold(s) && Next(s, s')
    ensures CodesHold(s')
  {
    hide Step, CodesHold, Quiet;
    var m :| Step(s, m, s');
    match m {
      case ApproveRequest(_, _, _, _, _, _, _, _) => ApproveKeeps(s, m, s');
      case ConsumeCode(_, _, _, _, _) => ConsumeKeeps(s, m, s');
      case IssueToken(_, _, _) => IssueKeeps(s, m, s');
      case _ =>
        IsQuiet(s, m, s');
        QuietKeeps(s, s');
    }
  }

  lemma {:induction false} RunKeepsCodes(states: seq<Sys>, k: nat)
    requires Run(states) && k < |states|
    ensures CodesHold(states[k])
  {
    hide Next, CodesHold;
    if k == 0 {
      StartsHold(states[0]);
    } else {
      RunKeepsCodes(states, k - 1);
      assert Next(states[k - 1], states[k - 1 + 1]);
      NextKeepsCodes(states[k - 1], states[k]);
    }
  }

  lemma StartsHold(s: Sys)
    requires Starts(s)
    ensures CodesHold(s)
  {
  }

  /** The token was issued for an approval in the log, as approved. */
  predicate IssuedAs(issued: Event, approved: Event)
    requires issued.Issued?
  {
    && approved.Approved? && approved.code == issued.code
    && Matches(issued.access, approved.auth) && issued.access.family.None?
    && Within(issued.access.scopes, approved.consent) && Within(issued.access.scopes, approved.registered)
    && OfflineAccess !in issued.access.scopes && issued.access.expiresAt == issued.at + TOKEN_LIFETIME
  }

  /** However calls interleave, a request yields at most one code and a code at
      most one access token; the token is for the person, session, client and
      installation that approved, with the approved scopes, which lie within the
      consent and the registration and never include offline access. */
  lemma CodesAreUsedOnce(states: seq<Sys>, k: nat)
    requires Run(states) && k < |states|
    ensures NoCodeClash(states[k].log)
    ensures var log := states[k].log;
      forall i :: 0 <= i < |log| && log[i].Issued? ==> exists j :: 0 <= j < |log| && IssuedAs(log[i], log[j])
  {
    hide Run;
    RunKeepsCodes(states, k);
    RunKeepsPlain(states, k);
    var s := states[k];
    forall i | 0 <= i < |s.log| && s.log[i].Issued?
      ensures exists j :: 0 <= j < |s.log| && IssuedAs(s.log[i], s.log[j])
    {
      assert Backed(s, s.log[i]);
      var d := s.log[i].code;
      assert HasApproval(s.log, d, s.t.codes[d].auth);
      var j :| 0 <= j < |s.log| && s.log[j].Approved? && s.log[j].code == d && s.log[j].auth == s.t.codes[d].auth;
      assert Backed(s, s.log[j]);
      assert IssuedAs(s.log[i], s.log[j]);
    }
  }

  /** A code is exchanged only by the client it was approved for, at its
      redirect address, by whoever holds the verifier behind the challenge the
      sign-in began with; and it is approved only by the login that began it. */
  lemma ExchangeIsBound(states: seq<Sys>, k: nat, m: Turn)
    requires Run(states) && k + 1 < |states| && Step(states[k], m, states[k + 1])
    ensures m.ConsumeCode? ==> exists i :: 0 <= i < |states[k].log| && BoundTo(states[k].log[i], m)
    ensures m.ApproveRequest? ==>
      var a := states[k].t.requests[m.id].auth;
      a.user == m.user && a.session == m.session && a.client == m.c.id && a.installation == m.c.installation
        && Within(a.scopes, m.consent)
  {
    hide Run, Active, ValidScopes;
    if m.ConsumeCode? {
      RunKeepsCodes(states, k);
      var s := states[k];
      var d := Sha256(m.raw);
      assert HasApproval(s.log, d, s.t.codes[d].auth);
      var i :| 0 <= i < |s.log| && s.log[i].Approved? && s.log[i].code == d && s.log[i].auth == s.t.codes[d].auth;
      assert BoundTo(s.log[i], m);
    }
  }

  predicate BoundTo(e: Event, m: Turn)
    requires m.ConsumeCode?
  {
    && e.Approved? && e.code == Sha256(m.raw) && e.auth.challenge == Sha256(m.verifier)
    && e.auth.redirect == m.redirect && e.auth.client == m.c.id && e.auth.installation == m.c.installation
  }

  predicate Plain(log: seq<Event>) { forall i :: 0 <= i < |log| && log[i].Issued? ==> log[i].access.family.None? }

  lemma {:induction false} RunKeepsPlain(states: seq<Sys>, k: nat)
    requires Run(states) && k < |states|
    ensures Plain(states[k].log)
  {
    if k > 0 {
      RunKeepsPlain(states, k - 1);
      NextKeepsPlain(states[k - 1], states[k]);
    }
  }

  lemma NextKeepsPlain(s: Sys, s': Sys)
    requires Plain(s.log) && Next(s, s')
    ensures Plain(s'.log)
  {
    hide Rotates, RevokedForSession, RevokedForInstallation, RevokedAccess, Approve, Consume, InsertAccess;
    hide InsertClient, InsertFamily, Begin;
  }

  // ---------------------------------------------------------------- refresh tokens

  function SpentBy(t: Tables, id: nat): set<Digest> { set d | d in t.spent && t.spent[d] == id }

  predicate NoTurnClash(log: seq<Event>) {
    forall i, j :: 0 <= i < j < |log| && log[i].Turned? && log[j].Turned? ==> log[i].token != log[j].token
  }

  predicate FamilyHolds(s: Sys, id: nat)
    requires id in s.t.families
  {
    var f := s.t.families[id];
    && f.current !in s.t.spent && f.current.raw in s.drawn
    && f.generation == |SpentBy(s.t, id)|
    && f.client in s.t.clients && s.t.clients[f.client].installation == f.installation
  }

  predicate FamiliesHold(s: Sys) {
    && (forall id :: id in s.t.families ==> FamilyHolds(s, id))
    && (forall x, y :: x in s.t.families && y in s.t.families && x != y ==>
      s.t.families[x].current != s.t.families[y].current)
    && (forall d :: d in s.t.spent ==> d.raw in s.drawn && s.t.spent[d] in s.t.families)
    && (forall i :: 0 <= i < |s.log| && s.log[i].Turned? ==>
      s.log[i].token in s.t.spent && s.t.spent[s.log[i].token] == s.log[i].family)
    && NoTurnClash(s.log)
  }

  /** A step that makes and turns no family. */
  predicate Still(s: Sys, s': Sys) {
    && s'.t.spent == s.t.spent && s'.t.families.Keys == s.t.families.Keys && s.drawn <= s'.drawn
    && (forall id :: id in s.t.families ==>
          s'.t.families[id].(revokedAt := None) == s.t.families[id].(revokedAt := None))
    && (forall c :: c in s.t.clients ==>
      c in s'.t.clients && s'.t.clients[c].installation == s.t.clients[c].installation)
    && s.log <= s'.log && (forall i :: |s.log| <= i < |s'.log| ==> !s'.log[i].Turned?)
  }

  lemma StillKeeps(s: Sys, s': Sys)
    requires FamiliesHold(s) && Still(s, s')
    ensures FamiliesHold(s')
  {
    forall id | id in s'.t.families ensures FamilyHolds(s', id) {
      assert FamilyHolds(s, id);
      assert s'.t.families[id].(revokedAt := None) == s.t.families[id].(revokedAt := None);
      assert SpentBy(s'.t, id) == SpentBy(s.t, id);
    }
    forall x, y | x in s'.t.families && y in s'.t.families && x != y
      ensures s'.t.families[x].current != s'.t.families[y].current
    {
      assert s'.t.families[x].(revokedAt := None) == s.t.families[x].(revokedAt := None);
      assert s'.t.families[y].(revokedAt := None) == s.t.families[y].(revokedAt := None);
    }
    forall i | 0 <= i < |s'.log| && s'.log[i].Turned?
      ensures s'.log[i].token in s'.t.spent && s'.t.spent[s'.log[i].token] == s'.log[i].family
    {
      assert i < |s.log| && s'.log[i] == s.log[i];
    }
  }

  lemma IsStill(s: Sys, m: Turn, s': Sys)
    requires Step(s, m, s') && !m.AddFamily? && !(m.Refresh? && m.r.Rotated?)
    ensures Still(s, s')
  {
    hide Step;
    match m {
      case RevokeSession(_, _) => SessionIsStill(s, m, s');
      case RevokeInstallation(_, _) => InstallationIsStill(s, m, s');
      case Refresh(_, _, _, _) => ReplayIsStill(s, m, s');
      case AddClient(_) => AddClientIsStill(s, m, s');
      case _ =>
        ClientsUntouched(s, m, s');
        FamiliesUntouched(s, m, s');
    }
  }

  lemma FamiliesUntouched(s: Sys, m: Turn, s': Sys)
    requires Step(s, m, s') && !m.AddFamily? && !m.Refresh? && !m.RevokeSession? && !m.RevokeInstallation?
    ensures s'.t.families == s.t.families && s'.t.spent == s.t.spent && s'.drawn == s.drawn
    ensures s.log <= s'.log && forall i :: |s.log| <= i < |s'.log| ==> !s'.log[i].Turned?
  {
    hide Active, Approvable, Consumable, ValidScopes, InsertAccess, InsertClient;
    match m {
      case AddFamilyAccess(a, raw) => AccessOnly(s.t, a, Sha256(raw));
      case IssueToken(code, raw, now) => AccessOnly(s.t, GrantFor(s.t, s.pending[code], now).value, Sha256(raw));
      case AddClient(c) => ClientsOnly(s.t, c.(revokedAt := None));
      case _ =>
    }
  }

  lemma AddClientIsStill(s: Sys, m: Turn, s': Sys)
    requires m.AddClient? && Step(s, m, s')
    ensures Still(s, s')
  {
  }

  lemma ReplayIsStill(s: Sys, m: Turn, s': Sys)
    requires m.Refresh? && !m.r.Rotated? && Step(s, m, s')
    ensures Still(s, s')
  {
    hide Turnable, Current;
  }

  lemma SessionIsStill(s: Sys, m: Turn, s': Sys)
    requires m.RevokeSession? && Step(s, m, s')
    ensures Still(s, s')
  {
  }

  lemma InstallationIsStill(s: Sys, m: Turn, s': Sys)
    requires m.RevokeInstallation? && Step(s, m, s')
    ensures Still(s, s')
  {
    hide MayRevoke;
  }

  lemma AddFamilyKeeps(s: Sys, m: Turn, s': Sys)
    requires FamiliesHold(s) && m.AddFamily? && Step(s, m, s')
    ensures FamiliesHold(s')
  {
    assert SpentBy(s'.t, m.family) == {};
    forall id | id in s'.t.families ensures FamilyHolds(s', id) {
      if id != m.family {
        assert FamilyHolds(s, id);
        assert SpentBy(s'.t, id) == SpentBy(s.t, id);
      }
    }
  }

  predicate Turns(s: Sys, s': Sys, id: nat, next: string) {
    && id in s.t.families && next !in s.drawn
    && s' == s.(t := Tokens.Turned(s.t, id, next), drawn := s.drawn + {next},
                log := s.log + [Event.Turned(s.t.families[id].current, id)])
  }

  lemma SpentAfter(t: Tables, id: nat, next: string, x: nat)
    requires id in t.families && t.families[id].current !in t.spent
    ensures |SpentBy(Tokens.Turned(t, id, next), x)| == |SpentBy(t, x)| + if x == id then 1 else 0
  {
    SpentSet(t, Tokens.Turned(t, id, next), t.families[id].current, id, x);
  }

  lemma SpentSet(t: Tables, t': Tables, d: Digest, id: nat, x: nat)
    requires d !in t.spent && t'.spent == t.spent[d := id]
    ensures SpentBy(t', x) == if x == id then SpentBy(t, x) + {d} else SpentBy(t, x)
    ensures d !in SpentBy(t, x)
  {
  }

  lemma TurnedFamily(s: Sys, s': Sys, id: nat, next: string, x: nat)
    requires Turns(s, s', id, next) && x in s.t.families && FamilyHolds(s, id) && FamilyHolds(s, x)
    requires x != id ==> s.t.families[x].current != s.t.families[id].current
    requires forall d :: d in s.t.spent ==> d.raw in s.drawn
    ensures FamilyHolds(s', x)
  {
    hide SpentBy;
    SpentAfter(s.t, id, next, x);
  }

  lemma TurnedLog(s: Sys, s': Sys, id: nat, next: string)
    requires FamiliesHold(s) && Turns(s, s', id, next)
    ensures NoTurnClash(s'.log)
    ensures forall i :: 0 <= i < |s'.log| && s'.log[i].Turned? ==>
      s'.log[i].token in s'.t.spent && s'.t.spent[s'.log[i].token] == s'.log[i].family
  {
    hide SpentBy;
    assert FamilyHolds(s, id);
  }

  lemma TurnKeeps(s: Sys, s': Sys, id: nat, next: string)
    requires FamiliesHold(s) && Turns(s, s', id, next)
    ensures FamiliesHold(s')
  {
    hide NoTurnClash, SpentBy;
    assert FamilyHolds(s, id);
    forall x | x in s'.t.families ensures FamilyHolds(s', x) { TurnedFamily(s, s', id, next, x); }
    TurnedLog(s, s', id, next);
    forall x | x in s.t.families ensures s.t.families[x].current != Sha256(next) { assert FamilyHolds(s, x); }
  }

  lemma NextKeepsFamilies(s: Sys, s': Sys)
    requires FamiliesHold(s) && Next(s, s')
    ensures FamiliesHold(s')
  {
    hide FamiliesHold, Still, Turnable;
    var m :| Step(s, m, s');
    if m.AddFamily? {
      AddFamilyKeeps(s, m, s');
    } else if m.Refresh? && m.r.Rotated? {
      var id :| TurnsTo(s, s', m.raw, m.next, id);
      TurnKeeps(s, s', id, m.next);
    } else {
      IsStill(s, m, s');
      StillKeeps(s, s');
    }
  }

  lemma {:induction false} RunKeepsFamilies(states: seq<Sys>, k: nat)
    requires Run(states) && k < |states|
    ensures FamiliesHold(states[k])
  {
    hide Next;
    if k > 0 {
      RunKeepsFamilies(states, k - 1);
      assert Next(states[k - 1], states[k - 1 + 1]);
      NextKeepsFamilies(states[k - 1], states[k]);
    }
  }

  /** Over every run a refresh token is turned at most once, a family's
      generation is the number of tokens it has spent, and no current token is a
      spent one. */
  lemma RefreshTokensTurnOnce(states: seq<Sys>, k: nat)
    requires Run(states) && k < |states|
    ensures NoTurnClash(states[k].log)
    ensures forall id :: id in states[k].t.families ==>
      states[k].t.families[id].generation == |SpentBy(states[k].t, id)|
        && states[k].t.families[id].current !in states[k].t.spent
  {
    hide Run, SpentBy;
    RunKeepsFamilies(states, k);
    forall id | id in states[k].t.families ensures FamilyHolds(states[k], id) { }
  }

  predicate FamilyDead(t: Tables, id: nat) { id in t.families && t.families[id].revokedAt.Some? }

  /** The family turns no token and backs no access token. */
  ghost predicate Lifeless(t: Tables, id: nat) {
    && (forall raw, now, next :: Current(t, Sha256(raw), id) ==> !Turnable(t, id, now, next))
    && (forall raw, now :: ResolveAccess(t, raw, now).Some? ==> ResolveAccess(t, raw, now).value.family != Some(id))
  }

  lemma DeadFamilyRefuses(t: Tables, id: nat)
    requires FamilyDead(t, id)
    ensures Lifeless(t, id)
  {
  }

  lemma NextKeepsDead(s: Sys, s': Sys, id: nat)
    requires FamilyDead(s.t, id) && Next(s, s')
    ensures FamilyDead(s'.t, id)
  {
    hide Step;
    var m :| Step(s, m, s');
    if m.AddFamily? || m.Refresh? {
      DeadThroughTurns(s, m, s', id);
    } else if m.RevokeSession? || m.RevokeInstallation? {
      DeadThroughRevocation(s, m, s', id);
    } else {
      FamiliesUntouched(s, m, s');
    }
  }

  lemma DeadThroughTurns(s: Sys, m: Turn, s': Sys, id: nat)
    requires FamilyDead(s.t, id) && Step(s, m, s') && (m.AddFamily? || m.Refresh?)
    ensures FamilyDead(s'.t, id)
  {
    hide Turnable;
  }

  lemma DeadThroughRevocation(s: Sys, m: Turn, s': Sys, id: nat)
    requires FamilyDead(s.t, id) && Step(s, m, s') && (m.RevokeSession? || m.RevokeInstallation?)
    ensures FamilyDead(s'.t, id)
  {
    hide MayRevoke;
  }

  lemma {:induction false} DeadStays(states: seq<Sys>, i: nat, j: nat, id: nat)
    requires Run(states) && i <= j < |states| && FamilyDead(states[i].t, id)
    ensures FamilyDead(states[j].t, id)
    decreases j
  {
    hide Next, FamilyDead;
    if i < j {
      DeadStays(states, i, j - 1, id);
      assert Next(states[j - 1], states[j - 1 + 1]);
      NextKeepsDead(states[j - 1], states[j], id);
    }
  }

  /** Presenting a spent token is always recognised as a replay and kills its
      family at once. */
  lemma SpentIsReplay(s: Sys, raw: string, now: nat, next: string, r: Rotation, t': Tables)
    requires FamiliesHold(s) && Sha256(raw) in s.t.spent && |raw| == RAW_LENGTH && Rotates(s.t, raw, now, next, r, t')
    ensures r == ReplayRevoked && FamilyDead(t', s.t.spent[Sha256(raw)])
  {
    hide SpentBy, NoTurnClash;
    forall id ensures !Current(s.t, Sha256(raw), id) {
      if id in s.t.families { assert FamilyHolds(s, id); }
    }
  }

  /** From a replay on, for ever: the family turns no token again and no access
      token it backs resolves. */
  lemma ReplayIsFinal(states: seq<Sys>, j: nat, k: nat, m: Turn)
    requires Run(states) && j < k < |states| && m.Refresh? && Step(states[j], m, states[j + 1])
    requires |m.raw| == RAW_LENGTH && Sha256(m.raw) in states[j].t.spent
    ensures m.r == ReplayRevoked && Lifeless(states[k].t, states[j].t.spent[Sha256(m.raw)])
  {
    hide Run, FamiliesHold, FamilyDead, Rotates, Lifeless;
    var id := states[j].t.spent[Sha256(m.raw)];
    RunKeepsFamilies(states, j);
    SpentIsReplay(states[j], m.raw, m.now, m.next, m.r, states[j + 1].t);
    DeadStays(states, j + 1, k, id);
    DeadFamilyRefuses(states[k].t, id);
  }

  // ---------------------------------------------------------------- revoking an installation

  /** The installation has a client row, and every row of it is revoked. */
  predicate Withdrawn(t: Tables, i: nat) {
    && (exists c :: c in t.clients && t.clients[c].installation == i)
    && forall c :: c in t.clients && t.clients[c].installation == i ==> t.clients[c].revokedAt.Some?
  }

  lemma RevocationWithdraws(t: Tables, i: nat, at: nat)
    ensures Withdrawn(RevokedForInstallation(t, i, at), i) <==>
      exists c :: c in t.clients && t.clients[c].installation == i
  {
    var after := RevokedForInstallation(t, i, at);
    if c :| c in t.clients && t.clients[c].installation == i {
      assert c in after.clients && after.clients[c].installation == i;
    }
  }

  /** Clients only ever come, for installations that have none, and are revoked. */
  predicate ClientsGrow(t: Tables, t': Tables) {
    && t.clients.Keys <= t'.clients.Keys
    && (forall c :: c in t.clients ==> t'.clients[c].installation == t.clients[c].installation)
    && (forall c :: c in t.clients && t.clients[c].revokedAt.Some? ==> t'.clients[c].revokedAt.Some?)
    && (forall c :: c in t'.clients && c !in t.clients ==>
          forall x :: x in t.clients ==> t.clients[x].installation != t'.clients[c].installation)
  }

  lemma ClientsUntouched(s: Sys, m: Turn, s': Sys)
    requires Step(s, m, s') && !m.AddClient? && !m.RevokeInstallation?
    ensures s'.t.clients == s.t.clients
  {
    hide Active, Approvable, ValidScopes, MayRevoke, InsertAccess, InsertFamily, Turnable, Current;
    match m {
      case AddFamilyAccess(a, raw) => AccessOnly(s.t, a, Sha256(raw));
      case IssueToken(code, raw, now) => AccessOnly(s.t, GrantFor(s.t, s.pending[code], now).value, Sha256(raw));
      case AddFamily(id, f) => FamiliesOnly(s.t, id, f);
      case _ =>
    }
  }

  lemma NextGrowsClients(s: Sys, s': Sys)
    requires Next(s, s')
    ensures ClientsGrow(s.t, s'.t)
  {
    hide MayRevoke, Approve, Consume, Begin, Rotates;
    var m :| Step(s, m, s');
    if !m.AddClient? && !m.RevokeInstallation? { ClientsUntouched(s, m, s'); }
  }

  lemma GrowthKeepsWithdrawn(t: Tables, t': Tables, i: nat)
    requires Withdrawn(t, i) && ClientsGrow(t, t')
    ensures Withdrawn(t', i)
  {
    var c :| c in t.clients && t.clients[c].installation == i;
    assert c in t'.clients && t'.clients[c].installation == i;
  }

  lemma {:induction false} WithdrawnStays(states: seq<Sys>, j: nat, k: nat, i: nat)
    requires Run(states) && j <= k < |states| && Withdrawn(states[j].t, i)
    ensures Withdrawn(states[k].t, i)
    decreases k
  {
    hide Next, Withdrawn, ClientsGrow;
    if j < k {
      WithdrawnStays(states, j, k - 1, i);
      assert Next(states[k - 1], states[k - 1 + 1]);
      NextGrowsClients(states[k - 1], states[k]);
      GrowthKeepsWithdrawn(states[k - 1].t, states[k].t, i);
    }
  }

  ghost predicate NothingApproved(t: Tables, i: nat) {
    forall id, c: Client, user, session, consent, now, raw, drawn ::
      c.installation == i ==> Approve(t, id, c, user, session, consent, now, raw, drawn).None?
  }

  ghost predicate NothingExchanged(t: Tables, i: nat) {
    forall raw, c: Client, redirect, verifier, now ::
      c.installation == i ==> Consume(t, raw, c, redirect, verifier, now).None?
  }

  ghost predicate NothingIssued(t: Tables, i: nat) {
    forall a: Access, digest :: a.installation == i ==> InsertAccess(t, a, digest).None?
  }

  ghost predicate NothingResolved(t: Tables, i: nat) {
    forall raw, now :: ResolveAccess(t, raw, now).Some? ==> ResolveAccess(t, raw, now).value.installation != i
  }

  ghost predicate NothingTurned(t: Tables, i: nat) {
    forall digest, id :: Current(t, digest, id) ==> t.families[id].installation != i
  }

  ghost predicate NothingRegistered(t: Tables, i: nat) {
    forall c: Client :: c.installation == i ==> InsertClient(t, c).None?
  }

  /** No sign-in, exchange, token or client for the installation. */
  ghost predicate ShutOut(t: Tables, i: nat) {
    && NothingApproved(t, i) && NothingExchanged(t, i) && NothingIssued(t, i)
    && NothingResolved(t, i) && NothingTurned(t, i) && NothingRegistered(t, i)
  }

  lemma WithdrawnRefuses(t: Tables, i: nat)
    requires Withdrawn(t, i)
    ensures NothingApproved(t, i) && NothingExchanged(t, i) && NothingIssued(t, i)
    ensures NothingResolved(t, i) && NothingRegistered(t, i)
  {
    hide ValidScopes;
  }

  lemma WithdrawnTurnsNothing(s: Sys, i: nat)
    requires FamiliesHold(s) && Withdrawn(s.t, i)
    ensures NothingTurned(s.t, i)
  {
    hide SpentBy, NoTurnClash;
    forall digest, id | Current(s.t, digest, id) ensures s.t.families[id].installation != i {
      assert FamilyHolds(s, id);
    }
  }

  /** After an installation was revoked, in every continuation, nothing is
      approved, exchanged, rotated, issued or resolved for it, and no client can
      be registered for it again. */
  lemma RevocationIsFinal(states: seq<Sys>, j: nat, k: nat, m: Turn)
    requires Run(states) && j < k < |states| && m.RevokeInstallation? && Step(states[j], m, states[j + 1])
    requires exists x :: x in states[j].t.clients && states[j].t.clients[x].installation == m.installation
    ensures ShutOut(states[k].t, m.installation)
  {
    hide Run, FamiliesHold, Withdrawn, NothingApproved, NothingExchanged, NothingIssued, NothingResolved, NothingTurned;
    hide NothingRegistered, RevokedForInstallation;
    RevocationWithdraws(states[j].t, m.installation, m.at);
    WithdrawnStays(states, j + 1, k, m.installation);
    WithdrawnRefuses(states[k].t, m.installation);
    RunKeepsFamilies(states, k);
    WithdrawnTurnsNothing(states[k], m.installation);
  }

  /** Revoking an installation without a client row closes nothing: exactly then
      a client can still be registered for it afterwards. */
  lemma RevocationNeedsARow(t: Tables, i: nat, at: nat, c: Client)
    requires c.installation == i && c.id !in t.clients
    ensures InsertClient(RevokedForInstallation(t, i, at), c).None? <==>
      exists x :: x in t.clients && t.clients[x].installation == i
  {
    var after := RevokedForInstallation(t, i, at);
    if x :| x in t.clients && t.clients[x].installation == i {
      assert x in after.clients && after.clients[x].installation == i;
    }
  }

  /** A record returned by a lookup stays what later calls may be handed. */
  lemma {:induction false} LookupStaysKnown(states: seq<Sys>, j: nat, k: nat, c: Client)
    requires Run(states) && j <= k < |states| && FindActive(states[j].t, c.id) == Some(c)
    ensures Known(states[k].t, c)
    decreases k
  {
    hide Next;
    if j < k {
      LookupStaysKnown(states, j, k - 1, c);
      assert Next(states[k - 1], states[k - 1 + 1]);
      NextKeepsKnown(states[k - 1], states[k], c);
    }
  }

  lemma NextKeepsKnown(s: Sys, s': Sys, c: Client)
    requires Known(s.t, c) && Next(s, s')
    ensures Known(s'.t, c)
  {
    hide MayRevoke, Approve, Consume, Begin, Rotates;
    var m :| Step(s, m, s');
    if !m.AddClient? && !m.RevokeInstallation? { ClientsUntouched(s, m, s'); }
  }

  // ---------------------------------------------------------------- lifetimes

  /** Requests are approved and codes exchanged only before they expire. */
  predicate Timely(t: Tables) {
    && (forall r :: r in t.requests && t.requests[r].consumedAt.Some? ==>
      t.requests[r].consumedAt.value < t.requests[r].expiresAt)
    && (forall d :: d in t.codes && t.codes[d].consumedAt.Some? ==> t.codes[d].consumedAt.value < t.codes[d].expiresAt)
  }

  lemma CodesUntouched(s: Sys, m: Turn, s': Sys)
    requires Step(s, m, s') && !m.BeginRequest? && !m.ApproveRequest? && !m.ConsumeCode? && !m.RevokeSession?
      && !m.RevokeInstallation?
    ensures s'.t.codes == s.t.codes && s'.t.requests == s.t.requests
  {
    hide InsertAccess, InsertFamily, InsertClient, Turnable, Current;
    match m {
      case AddFamilyAccess(a, raw) => AccessOnly(s.t, a, Sha256(raw));
      case IssueToken(code, raw, now) => AccessOnly(s.t, GrantFor(s.t, s.pending[code], now).value, Sha256(raw));
      case AddFamily(id, f) => FamiliesOnly(s.t, id, f);
      case AddClient(c) => ClientsOnly(s.t, c.(revokedAt := None));
      case _ =>
    }
  }

  lemma NextKeepsTimely(s: Sys, s': Sys)
    requires Timely(s.t) && Next(s, s')
    ensures Timely(s'.t)
  {
    hide Step, Timely;
    var m :| Step(s, m, s');
    if m.RevokeSession? || m.RevokeInstallation? {
      TimelyThroughRevocation(s, m, s');
    } else if m.BeginRequest? || m.ApproveRequest? || m.ConsumeCode? {
      TimelyThroughUse(s, m, s');
    } else {
      CodesUntouched(s, m, s');
      SameTimely(s.t, s'.t);
    }
  }

  lemma SameTimely(t: Tables, t': Tables)
    requires Timely(t) && t'.codes == t.codes && t'.requests == t.requests
    ensures Timely(t')
  {
  }

  lemma TimelyThroughRevocation(s: Sys, m: Turn, s': Sys)
    requires Timely(s.t) && Step(s, m, s') && (m.RevokeSession? || m.RevokeInstallation?)
    ensures Timely(s'.t)
  {
    hide MayRevoke;
  }

  lemma TimelyThroughUse(s: Sys, m: Turn, s': Sys)
    requires Timely(s.t) && Step(s, m, s') && (m.BeginRequest? || m.ApproveRequest? || m.ConsumeCode?)
    ensures Timely(s'.t)
  {
    hide Active, ValidScopes;
  }

  lemma {:induction false} NothingIsUsedLate(states: seq<Sys>, k: nat)
    requires Run(states) && k < |states|
    ensures Timely(states[k].t)
  {
    hide Next, Timely;
    if k == 0 {
      EmptyIsTimely(states[0]);
    } else {
      NothingIsUsedLate(states, k - 1);
      assert Next(states[k - 1], states[k - 1 + 1]);
      NextKeepsTimely(states[k - 1], states[k]);
    }
  }

  lemma EmptyIsTimely(s: Sys)
    requires Starts(s)
    ensures Timely(s.t)
  {
  }

  /** A code is exchanged, if at all, within a minute of its approval. */
  lemma CodesLiveOneMinute(states: seq<Sys>, k: nat, i: nat)
    requires Run(states) && k < |states| && i < |states[k].log| && states[k].log[i].Approved?
    ensures var e := states[k].log[i];
      e.code in states[k].t.codes && (states[k].t.codes[e.code].consumedAt.Some? ==>
        states[k].t.codes[e.code].consumedAt.value < e.at + 60)
  {
    hide Run;
    RunKeepsCodes(states, k);
    NothingIsUsedLate(states, k);
    assert Backed(states[k], states[k].log[i]);
  }

  // ---------------------------------------------------------------- pairwise subjects

  predicate SubjectsDiffer(t: Tables) {
    forall x, y :: x in t.subjects && y in t.subjects && x != y ==> t.subjects[x] != t.subjects[y]
  }

  predicate SubjectsKept(t: Tables, t': Tables) {
    forall x :: x in t.subjects ==> x in t'.subjects && t'.subjects[x] == t.subjects[x]
  }

  lemma SubjectsUntouched(s: Sys, m: Turn, s': Sys)
    requires Step(s, m, s') && !m.ApproveRequest?
    ensures s'.t.subjects == s.t.subjects
  {
    hide Active, ValidScopes, Consumable, MayRevoke, InsertAccess, InsertFamily, InsertClient, Turnable, Current;
    match m {
      case AddFamilyAccess(a, raw) => AccessOnly(s.t, a, Sha256(raw));
      case IssueToken(code, raw, now) => AccessOnly(s.t, GrantFor(s.t, s.pending[code], now).value, Sha256(raw));
      case AddFamily(id, f) => FamiliesOnly(s.t, id, f);
      case AddClient(c) => ClientsOnly(s.t, c.(revokedAt := None));
      case _ =>
    }
  }

  lemma NextKeepsSubjects(s: Sys, s': Sys)
    requires Next(s, s') && SubjectsDiffer(s.t)
    ensures SubjectsDiffer(s'.t) && SubjectsKept(s.t, s'.t)
  {
    var m :| Step(s, m, s');
    if m.ApproveRequest? {
      ApproveKeepsSubjects(s, m, s');
    } else {
      SubjectsUntouched(s, m, s');
    }
  }

  lemma ApproveKeepsSubjects(s: Sys, m: Turn, s': Sys)
    requires m.ApproveRequest? && Step(s, m, s') && SubjectsDiffer(s.t)
    ensures SubjectsDiffer(s'.t) && SubjectsKept(s.t, s'.t)
  {
    hide Approvable;
    forall x | x in s.t.subjects ensures s.t.subjects[x] in s.t.subjects.Values { }
  }

  lemma {:induction false} RunKeepsSubjects(states: seq<Sys>, k: nat)
    requires Run(states) && k < |states|
    ensures SubjectsDiffer(states[k].t)
  {
    hide Next;
    if k > 0 {
      RunKeepsSubjects(states, k - 1);
      assert Next(states[k - 1], states[k - 1 + 1]);
      NextKeepsSubjects(states[k - 1], states[k]);
    }
  }

  /** The subject an app sees for a person is drawn once and kept for ever, and
      no two people, and no two apps, share one. */
  lemma {:induction false} SubjectsAreStable(states: seq<Sys>, j: nat, k: nat)
    requires Run(states) && j <= k < |states|
    ensures SubjectsDiffer(states[k].t) && SubjectsKept(states[j].t, states[k].t)
    decreases k
  {
    hide Next;
    RunKeepsSubjects(states, k);
    if j < k {
      SubjectsAreStable(states, j, k - 1);
      assert Next(states[k - 1], states[k - 1 + 1]);
      NextKeepsSubjects(states[k - 1], states[k]);
    }
  }
}
