/** The lock-out that bounds password guessing. An attempt is counted before the
    password is checked, so checks that overlap are all counted
    (persistence-sqlite/src/password_credential_repository.rs,
    account-auth/src/password_authentication.rs). */
module Throttle {
  import opened Wrappers

  datatype Row = Row(hash: nat, changedAt: nat, failed: nat, blockedUntil: Option<nat>)

  datatype Policy = Policy(attempts: nat, lockout: nat)

  predicate ValidPolicy(p: Policy) { p.attempts >= 1 && p.lockout >= 1 }

  datatype Attempt = MissingCredential | Throttled(retryAt: nat) | Allowed(hash: nat) | Failed

  const U32_MAX: nat := 0xFFFF_FFFF
  const I64_MAX: nat := 0x7FFF_FFFF_FFFF_FFFF

  // ---------------------------------------------------------------- one attempt

  function Counted(row: Row): nat {
    (if row.blockedUntil.Some? then 0 else row.failed) + 1
  }

  predicate Blocked(row: Row, at: nat) { row.blockedUntil.Some? && at < row.blockedUntil.value }

  /** The row an attempt that is let through leaves; none when it is throttled or
      a counter or time would not fit. */
  function After(row: Row, at: nat, p: Policy): Option<Row> {
    var n := Counted(row);
    if Blocked(row, at) || n > U32_MAX || (n >= p.attempts && at + p.lockout > I64_MAX) then None
    else Some(row.(failed := n, blockedUntil := if n >= p.attempts then Some(at + p.lockout) else None))
  }

  /** The row after a password was accepted. */
  function Cleared(row: Row): Row { row.(failed := 0, blockedUntil := None) }

  /** The password itself and when it was set. */
  function Credential(row: Row): (nat, nat) { (row.hash, row.changedAt) }

  /** The row a new password leaves. */
  function Renewed(hash: nat, at: nat): Row { Row(hash, at, 0, None) }

  class Repository {
    var rows: map<nat, Row>

    method Replace(user: nat, hash: nat, at: nat)
      modifies this
      ensures rows == old(rows)[user := Renewed(hash, at)]
    {
      rows := rows[user := Row(hash, at, 0, None)];
    }

    method BeginAttempt(user: nat, at: nat, p: Policy) returns (r: Attempt)
      modifies this
      ensures r == MissingCredential <==> user !in old(rows)
      ensures r.Throttled? <==> user in old(rows) && Blocked(old(rows)[user], at)
      ensures r.Throttled? ==> r.retryAt == old(rows)[user].blockedUntil.value
      ensures r.Allowed? <==> user in old(rows) && After(old(rows)[user], at, p).Some?
      ensures r.Allowed? ==> r.hash == old(rows)[user].hash
      ensures forall u :: u in old(rows) ==> u in rows && Credential(rows[u]) == Credential(old(rows)[u])
      ensures r.Allowed? ==> rows == old(rows)[user := After(old(rows)[user], at, p).value]
      ensures !r.Allowed? ==> rows == old(rows)
    {
      if user !in rows { return MissingCredential; }
      var row := rows[user];
      if row.blockedUntil.Some? && row.blockedUntil.value > at { return Throttled(row.blockedUntil.value); }
      var previous := if row.blockedUntil.Some? then 0 else row.failed;
      if previous >= U32_MAX { return Failed; }
      var attempts := previous + 1;
      var blockedUntil: Option<nat> := None;
      if attempts >= p.attempts {
        if at + p.lockout > I64_MAX { return Failed; }
        blockedUntil := Some(at + p.lockout);
      }
      rows := rows[user := row.(failed := attempts, blockedUntil := blockedUntil)];
      return Allowed(row.hash);
    }

    method RecordSuccess(user: nat) returns (found: bool)
      modifies this
      ensures found <==> user in old(rows)
      ensures found ==> user in rows && rows[user] == Row(old(rows)[user].hash, old(rows)[user].changedAt, 0, None)
      ensures rows == if found then old(rows)[user := Cleared(old(rows)[user])] else old(rows)
    {
      if user !in rows { return false; }
      rows := rows[user := rows[user].(failed := 0, blockedUntil := None)];
      return true;
    }
  }

  // ---------------------------------------------------------------- many attempts

  predicate Rising(times: seq<nat>) {
    forall i, j :: 0 <= i < j < |times| ==> times[i] <= times[j]
  }

  /** Of attempts made at these times with no success and no new password in
      between, the times of those let through. */
  function Through(row: Row, times: seq<nat>, p: Policy): seq<nat>
    decreases |times|
  {
    if times == [] then []
    else match After(row, times[0], p)
      case None => Through(row, times[1..], p)
      case Some(next) => [times[0]] + Through(next, times[1..], p)
  }

  /** How many more attempts are let through before the lock falls. */
  function Left(row: Row, p: Policy): nat {
    if row.blockedUntil.Some? || row.failed == 0 then p.attempts
    else if row.failed >= p.attempts then 1
    else p.attempts - row.failed
  }

  lemma {:induction false} ThroughRises(row: Row, times: seq<nat>, p: Policy, floor: nat)
    requires Rising(times) && forall i :: 0 <= i < |times| ==> floor <= times[i]
    ensures Rising(Through(row, times, p))
    ensures forall i :: 0 <= i < |Through(row, times, p)| ==> floor <= Through(row, times, p)[i]
    decreases |times|
  {
    if times != [] {
      var next := After(row, times[0], p);
      ThroughRises(if next.Some? then next.value else row, times[1..], p, times[0]);
    }
  }

  /** While the lock holds nothing is let through. */
  lemma {:induction false} LockHolds(row: Row, times: seq<nat>, p: Policy)
    requires row.blockedUntil.Some? && Through(row, times, p) != []
    ensures Through(row, times, p)[0] >= row.blockedUntil.value
    decreases |times|
  {
    if After(row, times[0], p).None? { LockHolds(row, times[1..], p); }
  }

  /** The attempt that spends the last one left is followed by a full lock-out. */
  lemma {:induction false} LockFalls(row: Row, times: seq<nat>, p: Policy)
    requires ValidPolicy(p) && |Through(row, times, p)| > Left(row, p)
    ensures Left(row, p) >= 1
    ensures Through(row, times, p)[Left(row, p)] >= Through(row, times, p)[Left(row, p) - 1] + p.lockout
    decreases |times|
  {
    var next := After(row, times[0], p);
    if next.None? {
      LockFalls(row, times[1..], p);
    } else if next.value.blockedUntil.Some? {
      LockHolds(next.value, times[1..], p);
    } else {
      LockFalls(next.value, times[1..], p);
    }
  }

  /** Among one more attempt than the policy allows, two that follow each other are
      a lock-out apart, whatever clock readings the attempts come with. */
  lemma {:induction false} WindowHasLockout(row: Row, times: seq<nat>, p: Policy, i: nat) returns (k: nat)
    requires ValidPolicy(p) && i + p.attempts < |Through(row, times, p)|
    ensures i <= k < i + p.attempts && Through(row, times, p)[k + 1] >= Through(row, times, p)[k] + p.lockout
    decreases |times|
  {
    var next := After(row, times[0], p);
    if next.None? {
      k := WindowHasLockout(row, times[1..], p, i);
    } else if i > 0 {
      k := WindowHasLockout(next.value, times[1..], p, i - 1);
      k := k + 1;
    } else {
      LockFalls(row, times, p);
      k := Left(row, p) - 1;
    }
  }

  /** Any window of one more attempt than the policy allows spans a lock-out. */
  lemma WindowSpansLockout(row: Row, times: seq<nat>, p: Policy, i: nat)
    requires ValidPolicy(p) && Rising(times) && i + p.attempts < |Through(row, times, p)|
    ensures Through(row, times, p)[i + p.attempts] >= Through(row, times, p)[i] + p.lockout
  {
    ThroughRises(row, times, p, 0);
    var k := WindowHasLockout(row, times, p, i);
  }

  predicate Spans(row: Row, times: seq<nat>, p: Policy, i: nat) {
    var let := Through(row, times, p);
    i + p.attempts < |let| ==> let[i + p.attempts] >= let[i] + p.lockout
  }

  function Zeros(n: nat): seq<nat> { seq(n, _ => 0) }

  /** A round at time zero, one attempt when its lock has run out, and one whose
      reading fell back are all let through. */
  lemma {:induction false} FallsBack(row: Row, p: Policy, n: nat)
    requires 2 <= p.attempts <= U32_MAX && 1 <= p.lockout <= I64_MAX
    requires n >= 1 && row.blockedUntil.None? && row.failed + n == p.attempts
    ensures Through(row, Zeros(n) + [p.lockout, 0], p) == Zeros(n) + [p.lockout, 0]
    decreases n
  {
    var times := Zeros(n) + [p.lockout, 0];
    var next := After(row, 0, p).value;
    assert times[0] == 0 && times[1..] == Zeros(n - 1) + [p.lockout, 0] && times == [0] + times[1..];
    if n == 1 {
      var lifted := After(next, p.lockout, p).value;
      assert times[1..] == [p.lockout, 0] && [p.lockout, 0][1..] == [0] && [0][1..] == [];
      assert Through(lifted, [0], p) == [0] + Through(After(lifted, 0, p).value, [], p);
      assert Through(next, [p.lockout, 0], p) == [p.lockout] + Through(lifted, [0], p);
    } else {
      FallsBack(next, p, n - 1);
    }
  }

  /** A lock that does not fit is never stored, and its round never ends. */
  lemma {:induction false} NoLockNoRound(row: Row, times: seq<nat>, p: Policy)
    requires ValidPolicy(p) && p.lockout > I64_MAX
    ensures |Through(row, times, p)| < Left(row, p)
    decreases |times|
  {
    if times != [] {
      var next := After(row, times[0], p);
      NoLockNoRound(if next.Some? then next.value else row, times[1..], p);
    }
  }

  /** Every window spans a lock-out, whatever the readings, exactly under a policy
      of one attempt or one whose lock never falls; under every other, readings
      that fall break it. */
  lemma SpansForAllReadings(p: Policy)
    requires ValidPolicy(p) && p.attempts <= U32_MAX
    ensures (forall row, times, i: nat :: Spans(row, times, p, i)) <==> p.attempts == 1 || p.lockout > I64_MAX
  {
    hide Through, Left;
    if p.attempts == 1 || p.lockout > I64_MAX {
      forall row, times, i: nat ensures Spans(row, times, p, i) {
        if i + p.attempts < |Through(row, times, p)| {
          var k := WindowHasLockout(row, times, p, i);
          if p.lockout > I64_MAX {
            NoLockNoRound(row, times, p);
            LeftIsOneRound(row, p);
          }
        }
      }
    } else {
      var row, times := Row(0, 0, 0, None), Zeros(p.attempts) + [p.lockout, 0];
      FallsBack(row, p, p.attempts);
      assert Through(row, times, p)[1] == 0 && Through(row, times, p)[1 + p.attempts] == 0;
      assert !Spans(row, times, p, 1);
    }
  }

  lemma LeftIsOneRound(row: Row, p: Policy)
    requires ValidPolicy(p)
    ensures Left(row, p) <= p.attempts
  {
  }

  /** The rate bound: whatever the stored row, n attempts let through without a
      success take at least a lock-out for every full round of attempts. */
  lemma {:induction false} GuessingIsBounded(row: Row, times: seq<nat>, p: Policy, n: nat)
    requires ValidPolicy(p) && Rising(times) && 1 <= n <= |Through(row, times, p)|
    ensures Through(row, times, p)[n - 1] - Through(row, times, p)[0] >= (n - 1) / p.attempts * p.lockout
    decreases n
  {
    var let := Through(row, times, p);
    ThroughRises(row, times, p, 0);
    if n - 1 >= p.attempts {
      GuessingIsBounded(row, times, p, n - p.attempts);
      WindowSpansLockout(row, times, p, n - 1 - p.attempts);
      OneRoundLess(n - 1, p.attempts, p.lockout);
    } else {
      NoFullRound(n - 1, p.attempts);
    }
  }

  /** The lock also lifts: once it has run out, a full round of attempts is let
      through, even all at once. */
  lemma {:induction false} LockLifts(row: Row, p: Policy, at: nat, n: nat)
    requires ValidPolicy(p) && p.attempts <= U32_MAX && at + p.lockout <= I64_MAX
    requires !Blocked(row, at) && n <= Left(row, p) && (row.blockedUntil.None? ==> row.failed < p.attempts)
    ensures Through(row, seq(n, _ => at), p) == seq(n, _ => at)
    decreases n
  {
    var times := seq(n, _ => at);
    if n > 0 {
      var next := After(row, at, p).value;
      assert times[1..] == seq(n - 1, _ => at);
      if n > 1 { LockLifts(next, p, at, n - 1); }
      assert times == [at] + times[1..];
    }
  }

  // ---------------------------------------------------------------- successes and new passwords

  /** After an accepted password a full round is let through, whatever the row was
      before, even all at once. */
  lemma SuccessGivesARound(row: Row, p: Policy, at: nat, n: nat)
    requires p.attempts != 0 && p.lockout != 0
    requires p.attempts <= U32_MAX && at + p.lockout <= I64_MAX && n <= p.attempts
    ensures Through(Cleared(row), seq(n, _ => at), p) == seq(n, _ => at)
    ensures Credential(Cleared(row)) == Credential(row)
  {
    LockLifts(Cleared(row), p, at, n);
  }

  datatype Event = Guess | Success | NewPassword(hash: nat)

  function RowAfter(row: Row, events: seq<(Event, nat)>, p: Policy): Row {
    if events == [] then row
    else
      var before := RowAfter(row, events[..|events| - 1], p);
      var (e, at) := events[|events| - 1];
      match e
      case Success => Cleared(before)
      case NewPassword(hash) => Renewed(hash, at)
      case Guess => (match After(before, at, p) case None => before case Some(next) => next)
  }

  /** The last new password, or the one there was. */
  function LastPassword(row: Row, events: seq<(Event, nat)>): (nat, nat) {
    if events == [] then (row.hash, row.changedAt)
    else
      var (e, at) := events[|events| - 1];
      if e.NewPassword? then (e.hash, at) else LastPassword(row, events[..|events| - 1])
  }

  /** Attempts and successes never touch the password. */
  lemma {:induction false} CredentialKept(row: Row, events: seq<(Event, nat)>, p: Policy)
    ensures Credential(RowAfter(row, events, p)) == LastPassword(row, events)
  {
    if events != [] {
      CredentialKept(row, events[..|events| - 1], p);
      var before := RowAfter(row, events[..|events| - 1], p);
      var (e, at) := events[|events| - 1];
      assert e.Guess? && After(before, at, p).Some? ==> Credential(After(before, at, p).value) == Credential(before);
    }
  }

  /** How many attempts are let through when successes and new passwords come in
      between. */
  function Guesses(row: Row, events: seq<(Event, nat)>, p: Policy): nat
    decreases |events|
  {
    if events == [] then 0
    else match events[0].0
      case Success => Guesses(Cleared(row), events[1..], p)
      case NewPassword(hash) => Guesses(Renewed(hash, events[0].1), events[1..], p)
      case Guess =>
        match After(row, events[0].1, p)
        case None => Guesses(row, events[1..], p)
        case Some(next) => 1 + Guesses(next, events[1..], p)
  }

  function Resets(events: seq<(Event, nat)>): nat
    decreases |events|
  {
    if events == [] then 0 else (if events[0].0.Guess? then 0 else 1) + Resets(events[1..])
  }

  /** The events come in the order of their times, between the two given. */
  predicate Within(events: seq<(Event, nat)>, start: nat, end: nat) {
    start <= end && (events != [] ==> start <= events[0].1 && Within(events[1..], events[0].1, end))
  }

  /** A locked row has nothing left, and its lock-out counts as time passed. */
  function Credit(row: Row, p: Policy): nat { if row.blockedUntil.Some? then 0 else Left(row, p) }

  function Since(row: Row, start: nat, p: Policy): int {
    if row.blockedUntil.Some? then row.blockedUntil.value - p.lockout else start
  }

  function Times(m: nat, k: nat): nat { m * k }

  lemma OneMoreTime(m: nat, k: nat)
    ensures Times(m, k + 1) == Times(m, k) + m
  {
  }

  /** A lock found at this time was set before it. */
  predicate LockedBefore(row: Row, start: nat, p: Policy) {
    row.blockedUntil.Some? ==> row.blockedUntil.value <= start + p.lockout
  }

  /** Every attempt is paid for: by what the row had left, by a reset, or by a full
      lock-out that passed. */
  predicate Paid(n: nat, row: Row, p: Policy, q: nat, r: nat, start: nat, end: nat) {
    && n <= Credit(row, p) + Times(p.attempts, q + r)
    && (q > 0 ==> Times(p.lockout, q) <= end - Since(row, start, p))
  }

  lemma ResetPays(n: nat, row: Row, next: Row, p: Policy, q: nat, r: nat, start: nat, t: nat, end: nat)
    requires Paid(n, next, p, q, r, t, end) && next.failed == 0 && next.blockedUntil.None?
    requires start <= t && LockedBefore(row, start, p)
    ensures Paid(n, row, p, q, r + 1, start, end)
  {
    hide Times;
    OneMoreTime(p.attempts, q + r);
    assert q + (r + 1) == q + r + 1;
  }

  lemma GuessPays(n: nat, row: Row, p: Policy, q: nat, r: nat, start: nat, t: nat, end: nat)
    requires ValidPolicy(p) && start <= t <= end && After(row, t, p).Some?
      && Paid(n, After(row, t, p).value, p, q, r, t, end)
    ensures Paid(n + 1, row, p, if row.blockedUntil.Some? then q + 1 else q, r, start, end)
  {
    hide Times;
    if row.blockedUntil.Some? {
      OneMoreTime(p.attempts, q + r);
      OneMoreTime(p.lockout, q);
      assert q + 1 + r == q + r + 1;
      if q == 0 { assert Times(p.lockout, 0) == 0 by { NoTimes(p.lockout); } }
    }
  }

  lemma NoTimes(m: nat)
    ensures Times(m, 0) == 0
  {
  }

  /** Every success and every new password buys one more round of attempts, every
      full lock-out another, and nothing else does. */
  lemma {:induction false} ResetsBuyOneRound(row: Row, events: seq<(Event, nat)>, p: Policy, start: nat, end: nat)
    returns (q: nat)
    requires ValidPolicy(p) && Within(events, start, end) && LockedBefore(row, start, p)
    ensures Paid(Guesses(row, events, p), row, p, q, Resets(events), start, end)
    decreases |events|
  {
    hide Paid, Times, Left;
    if events == [] {
      q := 0;
      assert Paid(0, row, p, 0, 0, start, end) by { NothingToPay(row, p, start, end); }
      return;
    }
    var (e, t) := events[0];
    match e {
      case Success =>
        q := ResetsBuyOneRound(Cleared(row), events[1..], p, t, end);
        ResetPays(Guesses(row, events, p), row, Cleared(row), p, q, Resets(events[1..]), start, t, end);
      case NewPassword(hash) =>
        q := ResetsBuyOneRound(Row(hash, t, 0, None), events[1..], p, t, end);
        ResetPays(Guesses(row, events, p), row, Row(hash, t, 0, None), p, q, Resets(events[1..]), start, t, end);
      case Guess =>
        var next := After(row, t, p);
        if next.Some? {
          q := ResetsBuyOneRound(next.value, events[1..], p, t, end);
          GuessPays(Guesses(next.value, events[1..], p), row, p, q, Resets(events[1..]), start, t, end);
          q := if row.blockedUntil.Some? then q + 1 else q;
        } else {
          q := ResetsBuyOneRound(row, events[1..], p, t, end);
          WaitingPays(Guesses(row, events, p), row, p, q, Resets(events), start, t, end);
        }
    }
  }

  lemma NothingToPay(row: Row, p: Policy, start: nat, end: nat)
    ensures Paid(0, row, p, 0, 0, start, end)
  {
  }

  lemma WaitingPays(n: nat, row: Row, p: Policy, q: nat, r: nat, start: nat, t: nat, end: nat)
    requires start <= t && Paid(n, row, p, q, r, t, end)
    ensures Paid(n, row, p, q, r, start, end)
  {
    hide Times;
  }

  /** The full lock-outs in a stretch of time. */
  function Lockouts(span: nat, l: nat): nat
    requires l >= 1
  {
    span / l
  }

  /** From a row that is not locked, over any stretch of time: one round, one more
      for every success or new password, and one for every full lock-out. */
  lemma GuessesAreBounded(row: Row, events: seq<(Event, nat)>, p: Policy, start: nat, end: nat)
    requires ValidPolicy(p) && Within(events, start, end) && row.blockedUntil.None?
    ensures Guesses(row, events, p) <= Times(p.attempts, Lockouts(end - start, p.lockout) + Resets(events) + 1)
  {
    hide Times, Left, Lockouts, Guesses, Resets;
    var q := ResetsBuyOneRound(row, events, p, start, end);
    var r, full := Resets(events), Lockouts(end - start, p.lockout);
    assert q <= full by { if q > 0 { FullLockouts(p.lockout, q, end - start); } }
    assert Times(p.attempts, q + r) <= Times(p.attempts, full + r) by { TimesGrows(p.attempts, q + r, full + r); }
    OneMoreTime(p.attempts, full + r);
    assert Credit(row, p) <= p.attempts by { CreditIsOneRound(row, p); }
  }

  lemma FullLockouts(l: nat, q: nat, span: nat)
    requires l >= 1 && Times(l, q) <= span
    ensures q <= Lockouts(span, l)
  {
    var d: int := q - span / l;
    assert span == (span / l) * l + span % l;
    assert d >= 1 ==> d * l >= l;
    assert d * l == q * l - (span / l) * l;
  }

  lemma TimesGrows(m: nat, a: nat, b: nat)
    requires a <= b
    ensures Times(m, a) <= Times(m, b)
  {
    assert m * b == m * a + m * (b - a);
  }

  lemma CreditIsOneRound(row: Row, p: Policy)
    requires ValidPolicy(p)
    ensures Credit(row, p) <= p.attempts
  {
  }

  // ---------------------------------------------------------------- arithmetic

  lemma OneRoundLess(k: nat, m: nat, l: nat)
    requires 1 <= m <= k
    ensures k / m * l == (k - m) / m * l + l
  {
    var q, r := (k - m) / m, (k - m) % m;
    assert k == q * m + m + r;
    QuotientIs(k, m, q + 1, r);
    assert (q + 1) * l == q * l + l;
  }

  lemma QuotientIs(k: nat, m: nat, q: nat, r: nat)
    requires 1 <= m && r < m && k == q * m + r
    ensures k / m == q
  {
    var d: int := k / m - q;
    assert (d >= 1 ==> d * m >= m) && (d <= -1 ==> d * m + m <= 0);
    assert k == (k / m) * m + k % m;
    assert d * m == r - k % m;
  }

  lemma NoFullRound(k: nat, m: nat)
    requires k < m
    ensures k / m == 0
  {
    QuotientIs(k, m, 0, k);
  }
}
