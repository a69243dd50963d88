/** Two runs of overlapping confirms that make more comparisons than whole
    transactions could: one clears a lock twice, the other locks late. */
module ChallengeRaceRuns {
  import opened Wrappers
  import opened CodeChallenge
  import opened ChallengeRaces

  type Event = ChallengeRaces.Event

  /** What a stretch of events from s amounts to: m locks cleared again and n
      comparisons, in time, none of them right and no confirm slower than the latency. */
  datatype Setting = Setting(kind: Kind, hash: Hash, to: int, latency: int)

  ghost predicate Quiet(g: Setting, s: State, es: seq<Event>, from: int, m: nat, n: nat) {
    && During(es, from, g.to) && NoneAccepted(g.kind, g.hash, s, es) && Timely(g.kind, g.hash, s, es, g.latency)
    && Reclears(g.kind, g.hash, s, es) == m && ChallengeRaces.Comparisons(g.kind, g.hash, s, es) == n
  }

  /** One event in front of a quiet stretch. */
  lemma Before(g: Setting, s: State, e: Event, es: seq<Event>, from: int, m: nat, n: nat)
    requires from <= e.at <= g.to && InTime(s, e, g.latency) && Answer(g.kind, g.hash, s, e) != Some(Accepted)
    requires Quiet(g, ChallengeRaces.Next(g.kind, g.hash, s, e), es, e.at, m, n)
    ensures Quiet(g, s, [e] + es, from, m + (if ClearsAgain(g.kind, g.hash, s, e) then 1 else 0),
                  n + if ChallengeRaces.Compares(g.kind, g.hash, s, e) then 1 else 0)
  {
    assert ([e] + es)[0] == e && ([e] + es)[1..] == es;
  }

  /** A guess with nothing in between, in front of a quiet stretch. */
  lemma GuessBefore(g: Setting, s: State, c: CallId, at: int, guess: string, es: seq<Event>, from: int, m: nat, n: nat)
    returns (fs: seq<Event>)
    requires from <= at <= g.to && 0 <= g.latency
    requires c !in s.calls && Guessable(g.hash, s.row, at, guess) && !IsLocked(s.row.lockedUntil, at)
    requires s.row.attempts < MAX_ATTEMPTS && Unlocked(s.row).lifetime < BUDGET
    requires Quiet(g, State(Reserved(Unlocked(s.row)), s.calls), es, at, m, n)
    ensures Quiet(g, s, fs, from, m, n + 1)
  {
    var t := s.(calls := s.calls[c := Attempt(s.row, guess, at)]);
    AloneIsConfirm(g.kind, g.hash, s.row, guess, at);
    assert t.calls - {c} == s.calls;
    Before(g, t, Finish(c, at), es, at, m, n);
    Before(g, s, Begin(c, guess, at, at), [Finish(c, at)] + es, from, m, n + 1);
    fs := [Begin(c, guess, at, at)] + ([Finish(c, at)] + es);
  }

  /** k such guesses on one code, none of which finds a lock. */
  lemma GuessesBefore(g: Setting, s: State, k: nat, c: CallId, at: int, guess: string, es: seq<Event>, m: nat, n: nat)
    returns (fs: seq<Event>)
    requires at <= g.to && 0 <= g.latency
    requires c !in s.calls && Guessable(g.hash, s.row, at, guess) && s.row.lockedUntil.None?
    requires s.row.attempts + k <= MAX_ATTEMPTS && s.row.lifetime + k <= BUDGET
    requires Quiet(g, State(s.row.(attempts := s.row.attempts + k, lifetime := s.row.lifetime + k), s.calls), es, at, m, n)
    ensures Quiet(g, s, fs, at, m, n + k)
    decreases k
  {
    if k == 0 {
      fs := es;
    } else {
      fs := GuessesBefore(g, State(Reserved(s.row), s.calls), k - 1, c, at, guess, es, m, n);
      fs := GuessBefore(g, s, c, at, guess, fs, at, m, n + k - 1);
    }
  }

  /** A new code and k guesses on it, in front of a quiet stretch. */
  lemma CodeBefore(g: Setting, s: State, k: nat, at: int, codeHash: Bytes, salt: Bytes, guess: string,
                   es: seq<Event>, from: int, m: nat, n: nat)
    returns (fs: seq<Event>)
    requires from <= at <= g.to && 0 <= g.latency && 0 !in s.calls
    requires !s.row.verified && s.row.lockedUntil.None? && CanResend(s.row.lastSent, at)
    requires salt != [] && codeHash != [] && g.hash(salt, guess) != codeHash
    requires k <= MAX_ATTEMPTS && s.row.lifetime + k <= BUDGET
    requires Quiet(g, State(AfterRound(s.row.lifetime + k, k, at, codeHash, salt), s.calls), es, at, m, n)
    ensures Quiet(g, s, fs, from, m, n + k)
  {
    var t := State(AfterRound(s.row.lifetime, 0, at, codeHash, salt), s.calls);
    fs := GuessesBefore(g, t, k, 0, at, guess, es, m, n);
    assert ChallengeRaces.Next(g.kind, g.hash, s, Reissue(at, codeHash, salt)) == t;
    Before(g, s, Reissue(at, codeHash, salt), fs, from, m, n + k);
    fs := [Reissue(at, codeHash, salt)] + fs;
  }

  // ---- clearing twice ------------------------------------------------------------------

  /** A lock runs out at time zero, when a new code is sent. */
  function Lapsed(codeHash: Bytes, salt: Bytes): Challenge {
    Challenge(false, codeHash, salt, Some(CODE_TTL), 0, MAX_LIFETIME_ATTEMPTS, Some(0), Some(0))
  }

  /** Four guesses and three codes of five, from a count that has been restarted twice. */
  lemma RestOfBudget(g: Setting, s: State, codeHash: Bytes, salt: Bytes, wrong: string) returns (es: seq<Event>)
    requires 3 * RESEND_COOLDOWN <= g.to && g.latency == 0 && s.calls == map[]
    requires salt != [] && codeHash != [] && g.hash(salt, wrong) != codeHash
    requires s.row == Lapsed(codeHash, salt).(attempts := 2, lifetime := 1, lockedUntil := None)
    ensures Quiet(g, s, es, 0, 0, 18)
  {
    var t := RESEND_COOLDOWN;
    var s1 := State(s.row.(attempts := 5, lifetime := 4), s.calls);
    var s2, s3 := State(AfterRound(9, 5, t, codeHash, salt), s.calls), State(AfterRound(14, 5, 2 * t, codeHash, salt), s.calls);
    es := CodeBefore(g, s3, 5, 3 * t, codeHash, salt, wrong, [], 2 * t, 0, 0);
    es := CodeBefore(g, s2, 5, 2 * t, codeHash, salt, wrong, es, t, 0, 5);
    es := CodeBefore(g, s1, 5, t, codeHash, salt, wrong, es, 0, 0, 10);
    es := GuessesBefore(g, s, 3, 0, 0, wrong, es, 0, 15);
  }

  /** Two confirms read the same run-out lock and each restarts the count: one
      comparison more than the bound of whole transactions, within minutes and
      with no latency at all. */
  lemma RaceBreaksBound(kind: Kind, hash: Hash, codeHash: Bytes, salt: Bytes, wrong: string) returns (es: seq<Event>)
    requires salt != [] && codeHash != [] && hash(salt, wrong) != codeHash
    ensures var s := State(Lapsed(codeHash, salt), map[]);
            && Inv(s, 0) && During(es, 0, 3 * RESEND_COOLDOWN) && NoneAccepted(kind, hash, s, es)
            && Timely(kind, hash, s, es, 0) && Reclears(kind, hash, s, es) == 1
            && ChallengeRaces.Comparisons(kind, hash, s, es) == BUDGET + 1
            && BUDGET + 1 > BUDGET * (1 + 3 * RESEND_COOLDOWN / LOCKOUT_DURATION)
  {
    var g, row := Setting(kind, hash, 3 * RESEND_COOLDOWN, 0), Lapsed(codeHash, salt);
    var a := Attempt(row, wrong, 0);
    var s1, s2 := State(row, map[1 := a]), State(row, map[1 := a, 2 := a]);
    var s3 := State(row.(attempts := 1, lifetime := 1, lockedUntil := None), map[2 := a]);
    var s4 := State(row.(attempts := 2, lifetime := 1, lockedUntil := None), map[]);
    es := RestOfBudget(g, s4, codeHash, salt, wrong);
    assert Answer(kind, hash, s3, Finish(2, 0)) == Some(BadCode) && ChallengeRaces.Next(kind, hash, s3, Finish(2, 0)) == s4;
    Before(g, s3, Finish(2, 0), es, 0, 0, 18);
    es := [Finish(2, 0)] + es;
    assert s2.calls - {1} == s3.calls;
    assert Answer(kind, hash, s2, Finish(1, 0)) == Some(BadCode) && ChallengeRaces.Next(kind, hash, s2, Finish(1, 0)) == s3;
    Before(g, s2, Finish(1, 0), es, 0, 1, 19);
    es := [Finish(1, 0)] + es;
    assert ChallengeRaces.Next(kind, hash, s1, Begin(2, wrong, 0, 0)) == s2;
    Before(g, s1, Begin(2, wrong, 0, 0), es, 0, 1, 20);
    es := [Begin(2, wrong, 0, 0)] + es;
    Before(g, State(row, map[]), Begin(1, wrong, 0, 0), es, 0, 1, 20);
    es := [Begin(1, wrong, 0, 0)] + es;
  }

  // ---- locking late --------------------------------------------------------------------

  /** A row with a code sent a cooldown before time one. */
  function JustSent(codeHash: Bytes, salt: Bytes): Challenge {
    Challenge(false, codeHash, salt, Some(1 - RESEND_COOLDOWN + CODE_TTL), 0, 0, None, Some(1 - RESEND_COOLDOWN))
  }

  /** The confirm that locks, and the first guess after the lock has run out. */
  lemma LateLock(g: Setting, s: State, codeHash: Bytes, salt: Bytes, wrong: string) returns (es: seq<Event>)
    requires g.to == LOCKOUT_DURATION && g.latency == 2 * RESEND_COOLDOWN + 1
    requires salt != [] && codeHash != [] && g.hash(salt, wrong) != codeHash
    requires s == State(AfterRound(19, 4, 1 + 2 * RESEND_COOLDOWN, codeHash, salt), map[1 := Attempt(JustSent(codeHash, salt), wrong, 0)])
    ensures Quiet(g, s, es, 1 + 2 * RESEND_COOLDOWN, 0, 1)
  {
    var t, to := 1 + 2 * RESEND_COOLDOWN, LOCKOUT_DURATION;
    var locked := State(s.row.(attempts := 5, lifetime := 20, lockedUntil := Some(to)), map[]);
    var sent := State(locked.row.(expiresAt := Some(to + CODE_TTL), attempts := 0, lastSent := Some(to)), map[]);
    es := GuessBefore(g, sent, 0, to, wrong, [], to, 0, 0);
    assert ChallengeRaces.Next(g.kind, g.hash, locked, Reissue(to, codeHash, salt)) == sent;
    Before(g, locked, Reissue(to, codeHash, salt), es, t, 0, 1);
    es := [Reissue(to, codeHash, salt)] + es;
    assert s.calls - {1} == map[];
    assert Answer(g.kind, g.hash, s, Finish(1, t)) == Some(LockedNow) && ChallengeRaces.Next(g.kind, g.hash, s, Finish(1, t)) == locked;
    Before(g, s, Finish(1, t), es, t, 0, 1);
    es := [Finish(1, t)] + es;
  }

  /** A confirm a nanosecond slower than two cooldowns locks from a clock reading
      before the nineteen guesses that used the count up: the next guess comes
      less than a lockout after the first of them. No lock is cleared again. */
  lemma LateLockBreaksBound(kind: Kind, hash: Hash, codeHash: Bytes, salt: Bytes, wrong: string) returns (s: State, es: seq<Event>)
    requires salt != [] && codeHash != [] && hash(salt, wrong) != codeHash
    ensures s == ChallengeRaces.Next(kind, hash, State(JustSent(codeHash, salt), map[]), Begin(1, wrong, 0, 0))
    ensures Inv(s, 1) && During(es, 1, LOCKOUT_DURATION) && NoneAccepted(kind, hash, s, es)
    ensures Timely(kind, hash, s, es, 2 * RESEND_COOLDOWN + 1) && Reclears(kind, hash, s, es) == 0
    ensures ChallengeRaces.Comparisons(kind, hash, s, es) == BUDGET + 1
    ensures BUDGET + 1 > BUDGET * (1 + (LOCKOUT_DURATION - 1) / LOCKOUT_DURATION)
  {
    var g, t := Setting(kind, hash, LOCKOUT_DURATION, 2 * RESEND_COOLDOWN + 1), RESEND_COOLDOWN;
    s := State(JustSent(codeHash, salt), map[1 := Attempt(JustSent(codeHash, salt), wrong, 0)]);
    var s1 := State(s.row.(attempts := 5, lifetime := 5), s.calls);
    var s2, s3 := State(AfterRound(10, 5, 1, codeHash, salt), s.calls), State(AfterRound(15, 5, 1 + t, codeHash, salt), s.calls);
    es := LateLock(g, State(AfterRound(19, 4, 1 + 2 * t, codeHash, salt), s.calls), codeHash, salt, wrong);
    es := CodeBefore(g, s3, 4, 1 + 2 * t, codeHash, salt, wrong, es, 1 + t, 0, 1);
    es := CodeBefore(g, s2, 5, 1 + t, codeHash, salt, wrong, es, 1, 0, 5);
    es := CodeBefore(g, s1, 5, 1, codeHash, salt, wrong, es, 1, 0, 10);
    es := GuessesBefore(g, s, 5, 0, 1, wrong, es, 0, 15);
  }
}
