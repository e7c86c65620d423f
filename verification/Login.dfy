/** auth/service.py and auth/store.py: login attempts, the lockout, and sessions.

    One attempt runs under the row lock of its account, so attempts on one account are steps of one machine. */
module Login {
  import opened Basics

  datatype Policy = Policy(threshold: nat, lockSeconds: nat) {
    /** auth_limit_is_positive */
    predicate Valid() {
      threshold > 0 && lockSeconds > 0
    }
  }

  /** The columns of a credentials row that attempts read and write. */
  datatype Credential = Credential(failedAttempts: nat, lockedUntil: Option<Time>)

  datatype Outcome = Issued | InvalidCredentials | Locked(retryAfter: int)

  predicate InForce(c: Credential, now: Time) {
    c.lockedUntil.Some? && c.lockedUntil.value > now
  }

  /** math.ceil */
  function Ceiling(x: real): int {
    -(-x).Floor
  }

  function AfterFailure(p: Policy, c: Credential, now: Time): Credential {
    var previous := if c.lockedUntil.Some? then 0 else c.failedAttempts;
    var failures := previous + 1;
    Credential(failures, if failures >= p.threshold then Some(now + p.lockSeconds as real) else None)
  }

  /** One attempt on an existing account: the new row, the answer, and whether the password was verified. */
  function Attempt(p: Policy, c: Credential, now: Time, correct: bool): (Credential, Outcome, bool) {
    if InForce(c, now) then
      var remaining := Ceiling(c.lockedUntil.value - now);
      (c, Locked(if remaining < 1 then 1 else remaining), false)
    else if correct then (Credential(0, None), Issued, true)
    else (AfterFailure(p, c, now), InvalidCredentials, true)
  }

  datatype Session = Session(subject: Subject, expiresAt: Time, lastSeenAt: Option<Time>, revokedAt: Option<Time>)

  const LAST_SEEN_MIN_INTERVAL_SECONDS: real := 60.0

  predicate IsActive(s: Session, now: Time) {
    s.revokedAt.None? && s.expiresAt > now
  }

  predicate NeedsTouch(s: Session, now: Time) {
    s.lastSeenAt.None? || now - s.lastSeenAt.value >= LAST_SEEN_MIN_INTERVAL_SECONDS
  }

  /** AuthService on the store's tables. A username maps to its credential row and the hash of its password is a value the
      caller's password either matches or not; a token is kept as its hash. */
  class AuthService {
    const policy: Policy
    const sessionTtl: nat
    var credentials: map<string, Credential>
    var passwords: map<string, string>
    var sessions: map<string, Session>
    /** How often a stored password was checked, for each username. */
    ghost var verified: map<string, nat>

    constructor (policy: Policy, sessionTtl: nat)
      requires policy.Valid() && sessionTtl > 0
      ensures credentials == map[] && sessions == map[] && this.policy == policy && this.sessionTtl == sessionTtl
    {
      this.policy, this.sessionTtl := policy, sessionTtl;
      credentials, passwords, sessions, verified := map[], map[], map[], map[];
    }

    ghost function Verified(username: string): nat
      reads this
    {
      if username in verified then verified[username] else 0
    }

    /** login and _judge_login, for an already normalized username and a token drawn for the session. */
    method Login(username: string, password: string, now: Time, token: string) returns (outcome: Outcome)
      requires username in credentials ==> username in passwords
      modifies this
      ensures username !in old(credentials) ==>
        outcome == InvalidCredentials && credentials == old(credentials) && sessions == old(sessions)
        && Verified(username) == old(Verified(username))
      ensures username in old(credentials) ==>
        var step := Attempt(policy, old(credentials[username]), now, password == old(passwords[username]));
        && outcome == step.1
        && credentials == old(credentials)[username := step.0]
        && Verified(username) == old(Verified(username)) + (if step.2 then 1 else 0)
        && sessions
           == (if step.1 == Issued
               then old(sessions)[token := Session(username, now + sessionTtl as real, None, None)]
               else old(sessions))
      ensures passwords == old(passwords)
    {
      if username !in credentials {
        return InvalidCredentials;
      }
      var credential := credentials[username];
      if credential.lockedUntil.Some? && credential.lockedUntil.value > now {
        var remaining := Ceiling(credential.lockedUntil.value - now);
        return Locked(if 1 < remaining then remaining else 1);
      }
      verified := verified[username := Verified(username) + 1];
      if password != passwords[username] {
        RecordFailure(username, now);
        return InvalidCredentials;
      }
      credentials := credentials[username := Credential(0, None)];
      sessions := sessions[token := Session(username, now + sessionTtl as real, None, None)];
      return Issued;
    }

    /** _record_failure: an expired lock makes the count start again at one. */
    method RecordFailure(username: string, now: Time)
      requires username in credentials
      modifies this`credentials
      ensures credentials == old(credentials)[username := AfterFailure(policy, old(credentials[username]), now)]
    {
      var credential := credentials[username];
      var previousFailures := if credential.lockedUntil.Some? then 0 else credential.failedAttempts;
      var failures := previousFailures + 1;
      var lockedUntil := None;
      if failures >= policy.threshold {
        lockedUntil := Some(now + policy.lockSeconds as real);
      }
      credentials := credentials[username := Credential(failures, lockedUntil)];
    }

    /** authenticate: the subject of an active session; a stale last_seen_at is renewed on the way. */
    method Authenticate(token: string, now: Time) returns (subject: Option<Subject>)
      modifies this`sessions
      ensures subject.Some? <==> token in old(sessions) && IsActive(old(sessions[token]), now)
      ensures subject.Some? ==> subject.value == old(sessions[token]).subject
      ensures sessions == if subject.Some? && NeedsTouch(old(sessions[token]), now)
        then old(sessions)[token := old(sessions[token]).(lastSeenAt := Some(now))] else old(sessions)
    {
      if token !in sessions || !IsActive(sessions[token], now) {
        return None;
      }
      var session := sessions[token];
      if NeedsTouch(session, now) {
        sessions := sessions[token := session.(lastSeenAt := Some(now))];
      }
      return Some(session.subject);
    }

    /** logout; false stands for SessionInvalid. A session is revoked once: no later call authenticates with it. */
    method Logout(token: string, now: Time) returns (ok: bool)
      modifies this`sessions
      ensures ok <==> token in old(sessions) && IsActive(old(sessions[token]), now)
      ensures sessions == if ok
        then old(sessions)[token := old(sessions[token]).(revokedAt := Some(now))] else old(sessions)
      ensures token in sessions ==> !IsActive(sessions[token], now)
    {
      if token !in sessions || !IsActive(sessions[token], now) {
        return false;
      }
      sessions := sessions[token := sessions[token].(revokedAt := Some(now))];
      return true;
    }
  }

  // ---------------------------------------------------------------- how many passwords can be tried

  datatype Try = Try(at: Time, correct: bool)

  predicate InOrder(tries: seq<Try>) {
    forall i, j :: 0 <= i < j < |tries| ==> tries[i].at <= tries[j].at
  }

  /** No attempt of the stretch issues a session. */
  predicate NoSuccess(p: Policy, c: Credential, tries: seq<Try>)
    decreases |tries|
  {
    tries == []
    || var step := Attempt(p, c, tries[0].at, tries[0].correct);
       step.1 != Issued && NoSuccess(p, step.0, tries[1..])
  }

  /** How many of the attempts had the password verified. */
  function Verifications(p: Policy, c: Credential, tries: seq<Try>): nat
    decreases |tries|
  {
    if tries == [] then 0
    else
      var step := Attempt(p, c, tries[0].at, tries[0].correct);
      (if step.2 then 1 else 0) + Verifications(p, step.0, tries[1..])
  }

  /** Verifications left before the next lock, in a row that is not locked. */
  function Left(p: Policy, c: Credential): nat
    requires p.Valid()
    ensures 1 <= Left(p, c) <= p.threshold
  {
    var previous := if c.lockedUntil.Some? then 0 else c.failedAttempts;
    if previous + 1 >= p.threshold then 1 else p.threshold - previous
  }

  /** Fewer than k + 1 lock periods pass between the two times. */
  predicate Within(p: Policy, start: Time, end: Time, k: nat) {
    end - start < (p.lockSeconds * (k + 1)) as real
  }

  predicate Until(tries: seq<Try>, end: Time) {
    InOrder(tries) && forall i :: 0 <= i < |tries| ==> tries[i].at <= end
  }

  lemma TailUntil(tries: seq<Try>, end: Time)
    requires Until(tries, end) && tries != []
    ensures Until(tries[1..], end)
    ensures forall i :: 0 <= i < |tries| ==> tries[0].at <= tries[i].at
  {
  }

  /** From a row that is free at the first attempt: what is left of this batch, then at most one batch a lock period. */
  lemma {:induction false} BoundFromFree(p: Policy, c: Credential, tries: seq<Try>, end: Time, k: nat)
    requires p.Valid() && Until(tries, end) && NoSuccess(p, c, tries)
    requires tries != [] ==> !InForce(c, tries[0].at) && Within(p, tries[0].at, end, k)
    ensures Verifications(p, c, tries) <= Left(p, c) + p.threshold * k
    decreases |tries|, 0
  {
    if tries != [] {
      var first, rest := tries[0].at, tries[1..];
      var next := AfterFailure(p, c, first);
      TailUntil(tries, end);
      if next.lockedUntil.Some? {
        BoundFromLocked(p, next, rest, end, k);
      } else {
        if rest != [] { assert rest[0] == tries[1]; }
        BoundFromFree(p, next, rest, end, k);
      }
    }
  }

  /** From a row locked at some time until one lock period later: one batch for each further period. */
  lemma {:induction false} BoundFromLocked(p: Policy, c: Credential, tries: seq<Try>, end: Time, k: nat)
    requires p.Valid() && Until(tries, end) && NoSuccess(p, c, tries)
    requires c.lockedUntil.Some? && Within(p, c.lockedUntil.value - p.lockSeconds as real, end, k)
    ensures Verifications(p, c, tries) <= p.threshold * k
    decreases |tries|, 1
  {
    if tries != [] {
      TailUntil(tries, end);
      if InForce(c, tries[0].at) {
        BoundFromLocked(p, c, tries[1..], end, k);
      } else {
        assert c.lockedUntil.value <= tries[0].at <= end;
        assert p.lockSeconds * (k + 1) == p.lockSeconds * k + p.lockSeconds;
        BoundFromFree(p, c, tries, end, k - 1);
        assert p.threshold * k == p.threshold * (k - 1) + p.threshold;
      }
    }
  }

  /** The number of whole lock periods in a stretch of this length. */
  function Periods(p: Policy, length: real): nat
    requires p.Valid() && length >= 0.0
  {
    (length / (p.lockSeconds as real)).Floor
  }

  lemma PeriodsCover(p: Policy, length: real)
    requires p.Valid() && length >= 0.0
    ensures length < (p.lockSeconds * (Periods(p, length) + 1)) as real
  {
    var l, k := p.lockSeconds as real, Periods(p, length);
    var q := length / l;
    assert q < (k + 1) as real;
    assert length == q * l;
    LessTimes(q, (k + 1) as real, l);
    ProductAsReal(p.lockSeconds, k + 1);
  }

  lemma LessTimes(a: real, b: real, l: real)
    requires a < b && l > 0.0
    ensures a * l < b * l
  {
  }

  lemma {:induction false} ProductAsReal(a: nat, b: nat)
    ensures (a * b) as real == a as real * b as real
    decreases b
  {
    if b > 0 {
      ProductAsReal(a, b - 1);
      assert a * b == a * (b - 1) + a;
      assert b as real == (b - 1) as real + 1.0;
    }
  }

  /** In any stretch of attempts on one account without a successful login, started from any stored row, the number of
      password verifications within a window of the given length is at most threshold times one more than the number of
      whole lock periods in it. */
  lemma GuessesAreBounded(p: Policy, c: Credential, tries: seq<Try>, length: real)
    requires p.Valid() && InOrder(tries) && NoSuccess(p, c, tries)
    requires tries != [] && tries[|tries| - 1].at - tries[0].at <= length
    ensures Verifications(p, c, tries) <= p.threshold * (Periods(p, length) + 1)
  {
    var first, end, k := tries[0].at, tries[|tries| - 1].at, Periods(p, length);
    PeriodsCover(p, length);
    assert p.threshold * (k + 1) == p.threshold * k + p.threshold;
    if InForce(c, first) {
      assert p.lockSeconds * (k + 2) == p.lockSeconds * (k + 1) + p.lockSeconds;
      BoundFromLocked(p, c, tries, end, k + 1);
    } else {
      BoundFromFree(p, c, tries, end, k);
    }
  }

  /** While a lock is in force no password is verified, however many attempts there are and right ones among them. */
  lemma {:induction false} LockHoldsBack(p: Policy, c: Credential, tries: seq<Try>)
    requires c.lockedUntil.Some? && forall i :: 0 <= i < |tries| ==> tries[i].at < c.lockedUntil.value
    ensures Verifications(p, c, tries) == 0
    decreases |tries|
  {
    if tries != [] {
      LockHoldsBack(p, c, tries[1..]);
    }
  }

  /** `rounds` bursts of `threshold` wrong passwords, one burst a lock period. */
  function Attack(p: Policy, start: Time, rounds: nat): seq<Try>
    decreases rounds
  {
    if rounds == 0 then []
    else seq(p.threshold, i => Try(start, false)) + Attack(p, start + p.lockSeconds as real, rounds - 1)
  }

  /** One burst on a row whose count is n, not locked: every password is verified, and the last one locks. */
  lemma {:induction false} BurstVerifies(p: Policy, c: Credential, at: Time, n: nat, more: seq<Try>)
    requires p.Valid() && n < p.threshold && !InForce(c, at)
    requires n == (if c.lockedUntil.Some? then 0 else c.failedAttempts)
    ensures var burst := seq(p.threshold - n, i => Try(at, false));
      Verifications(p, c, burst + more)
      == p.threshold - n + Verifications(p, Credential(p.threshold, Some(at + p.lockSeconds as real)), more)
    decreases p.threshold - n
  {
    var burst := seq(p.threshold - n, i => Try(at, false));
    var next := AfterFailure(p, c, at);
    assert (burst + more)[0] == Try(at, false);
    assert (burst + more)[1..] == burst[1..] + more;
    if n + 1 < p.threshold {
      assert burst[1..] == seq(p.threshold - (n + 1), i => Try(at, false));
      BurstVerifies(p, next, at, n + 1, more);
    } else {
      assert burst[1..] == [] && [] + more == more;
    }
  }

  lemma {:induction false} AttackLength(p: Policy, start: Time, rounds: nat)
    requires p.Valid() && rounds > 0
    ensures var tries := Attack(p, start, rounds);
      tries != [] && tries[0].at == start && tries[|tries| - 1].at == start + (p.lockSeconds * (rounds - 1)) as real
    decreases rounds
  {
    var burst, next := seq(p.threshold, i => Try(start, false)), start + p.lockSeconds as real;
    assert burst[0] == burst[p.threshold - 1] == Try(start, false);
    if rounds == 1 {
      assert burst + [] == burst && p.lockSeconds * (rounds - 1) == 0;
    } else {
      AttackLength(p, next, rounds - 1);
      assert p.lockSeconds * (rounds - 1) == p.lockSeconds * (rounds - 2) + p.lockSeconds;
    }
  }

  /** The bound is reached: rounds bursts fit into a window of rounds - 1 lock periods. */
  lemma {:induction false} BoundIsReached(p: Policy, c: Credential, start: Time, rounds: nat)
    requires p.Valid() && (c == Credential(0, None) || (c.lockedUntil.Some? && c.lockedUntil.value <= start))
    ensures Verifications(p, c, Attack(p, start, rounds)) == p.threshold * rounds
    ensures rounds > 0 ==> var tries := Attack(p, start, rounds);
      tries != [] && tries[|tries| - 1].at - tries[0].at == (p.lockSeconds * (rounds - 1)) as real
    decreases rounds
  {
    if rounds > 0 {
      var next := start + p.lockSeconds as real;
      BurstVerifies(p, c, start, 0, Attack(p, next, rounds - 1));
      BoundIsReached(p, Credential(p.threshold, Some(next)), next, rounds - 1);
      AttackLength(p, start, rounds);
      assert p.threshold + p.threshold * (rounds - 1) == p.threshold * rounds;
    }
  }
}
