/** Confirms that are quick enough keep the bound of whole transactions. After a
    lock the code of before has expired, so a used-up count takes four new codes,
    each a resend cooldown after the one before. That makes good for locks that
    count from a clock reading of the past, as long as no confirm takes longer
    than two cooldowns. */
module ChallengePrompt {
  import opened Wrappers
  import opened CodeChallenge
  import opened ChallengeRaces

  type Event = ChallengeRaces.Event

  /** What a stretch of time from `from` has seen: the locks set on an unlocked
      row, comparisons and re-issues before the first of them, and both since
      the last. */
  datatype Trace = Trace(from: int, locks: nat, guessesBefore: nat, codesBefore: nat, guesses: nat, codes: nat)

  function Follow(kind: Kind, hash: Hash, s: State, e: Event, r: Trace): Trace {
    match e
    case Begin(_, _, _, _) => r
    case Reissue(at, codeHash, salt) => if Issue(kind, s.row, codeHash, salt, at).1 then r.(codes := r.codes + 1) else r
    case Finish(_, _) =>
      var o := Answer(kind, hash, s, e);
      if o == Some(BadCode) then r.(guesses := r.guesses + 1)
      else if o != Some(LockedNow) || s.row.lockedUntil.Some? then r
      else if r.locks == 0 then Trace(r.from, 1, r.guesses, r.codes, 0, 0)
      else r.(locks := r.locks + 1, guesses := 0, codes := 0)
  }

  /** All comparisons: a full budget between every two locks. */
  function Total(r: Trace): int {
    if r.locks == 0 then r.guesses else r.guessesBefore + BUDGET * (r.locks - 1) + r.guesses
  }

  /** Before this time the last lock has not run out. */
  function FreeFrom(r: Trace, latency: int): int {
    r.from + (if r.codesBefore > 1 then (r.codesBefore - 1) * RESEND_COOLDOWN else 0)
    + r.locks * LOCKOUT_DURATION - latency
  }

  function AtMostMax(attempts: nat): nat { if attempts < MAX_ATTEMPTS then attempts else MAX_ATTEMPTS }

  ghost predicate Started(r: Trace, row: Challenge, t: int) {
    && (row.lockedUntil.Some? ==> r.guesses == 0)
    && (row.lockedUntil.None? ==> r.guesses <= row.lifetime)
    && r.guesses <= MAX_ATTEMPTS * r.codes + AtMostMax(row.attempts)
    && (r.codes >= 1 ==> row.lastSent.Some? && r.from + (r.codes - 1) * RESEND_COOLDOWN <= row.lastSent.value <= t)
  }

  ghost predicate Cycled(r: Trace, s: State, t: int, latency: int) {
    var row, free := s.row, FreeFrom(r, latency);
    && r.guessesBefore <= BUDGET && r.guessesBefore < MAX_ATTEMPTS * (r.codesBefore + 1)
    && free + latency - LOCKOUT_DURATION <= t
    && (r.codes == 0 ==> r.guesses == 0)
    && (r.codes >= 1 ==>
          && row.lastSent.Some? && free + (r.codes - 1) * RESEND_COOLDOWN <= row.lastSent.value <= t
          && r.guesses <= MAX_ATTEMPTS * (r.codes - 1) + AtMostMax(row.attempts))
    && (row.lockedUntil.None? ==> r.guesses == row.lifetime && r.codes >= 1)
    && (row.lockedUntil.Some? ==>
          && r.guesses == 0 && free <= row.lockedUntil.value
          && (r.codes == 0 ==> IsExpired(row.expiresAt, row.lockedUntil.value))
          && (forall c | c in s.calls && Reopens(s.calls[c], row) :: r.codes >= 1))
  }

  /** The confirm would restart the count after this very lock. */
  predicate Reopens(a: Attempt, row: Challenge) {
    && row.lockedUntil.Some? && a.seen.lockedUntil == row.lockedUntil && row.lockedUntil.value <= a.now
    && !IsExpired(a.seen.expiresAt, a.now)
  }

  ghost predicate Kept(r: Trace, s: State, t: int, latency: int) {
    && Inv(s, t) && r.from <= t && r.guesses <= BUDGET
    && (s.row.expiresAt.Some? ==> s.row.expiresAt.value <= t + CODE_TTL)
    && (if r.locks == 0 then Started(r, s.row, t) else Cycled(r, s, t, latency))
  }

  lemma BeginKeeps(kind: Kind, hash: Hash, s: State, e: Event, r: Trace, t: int, latency: int)
    requires 0 <= latency <= 2 * RESEND_COOLDOWN && Kept(r, s, t, latency) && t <= e.at && InTime(s, e, latency)
    requires e.Begin?
    ensures Kept(r, ChallengeRaces.Next(kind, hash, s, e), e.at, latency)
  {
  }

  lemma ReissueKeeps(kind: Kind, hash: Hash, s: State, e: Event, r: Trace, t: int, latency: int)
    requires 0 <= latency <= 2 * RESEND_COOLDOWN && Kept(r, s, t, latency) && t <= e.at && e.Reissue?
    ensures Kept(Follow(kind, hash, s, e, r), ChallengeRaces.Next(kind, hash, s, e), e.at, latency)
  {
  }

  /** A lock that counts from at most the latency ago. */
  lemma LockKeeps(kind: Kind, hash: Hash, s: State, e: Event, r: Trace, t: int, latency: int)
    requires 0 <= latency <= 2 * RESEND_COOLDOWN && Kept(r, s, t, latency) && t <= e.at && InTime(s, e, latency)
    requires Answer(kind, hash, s, e) == Some(LockedNow) && !ClearsAgain(kind, hash, s, e)
    ensures var q := Follow(kind, hash, s, e, r);
            Kept(q, ChallengeRaces.Next(kind, hash, s, e), e.at, latency) && Total(q) == Total(r)
  {
    var a, q, u := s.calls[e.call], Follow(kind, hash, s, e, r), ChallengeRaces.Next(kind, hash, s, e);
    assert u.row.lockedUntil == Some(a.now + LOCKOUT_DURATION) && a.now + LOCKOUT_DURATION >= e.at + CODE_TTL;
    assert forall c | c in u.calls :: !Reopens(u.calls[c], u.row);
    if s.row.lockedUntil.None? && r.locks > 0 { assert r.guesses == BUDGET && r.codes >= 4; }
  }

  lemma GuessKeeps(kind: Kind, hash: Hash, s: State, e: Event, r: Trace, t: int, latency: int)
    requires 0 <= latency <= 2 * RESEND_COOLDOWN && Kept(r, s, t, latency) && t <= e.at && InTime(s, e, latency)
    requires Answer(kind, hash, s, e) == Some(BadCode) && !ClearsAgain(kind, hash, s, e)
    ensures var q := Follow(kind, hash, s, e, r);
            Kept(q, ChallengeRaces.Next(kind, hash, s, e), e.at, latency) && Total(q) == Total(r) + 1
  {
    var a := s.calls[e.call];
    if a.seen.lockedUntil.Some? { assert Reopens(a, s.row); }
  }

  lemma StepFollows(kind: Kind, hash: Hash, s: State, e: Event, r: Trace, t: int, latency: int)
    requires 0 <= latency <= 2 * RESEND_COOLDOWN && Kept(r, s, t, latency) && t <= e.at && InTime(s, e, latency)
    requires Answer(kind, hash, s, e) != Some(Accepted) && !ClearsAgain(kind, hash, s, e)
    ensures var q := Follow(kind, hash, s, e, r);
            && Kept(q, ChallengeRaces.Next(kind, hash, s, e), e.at, latency)
            && Total(q) == Total(r) + if ChallengeRaces.Compares(kind, hash, s, e) then 1 else 0
  {
    var o := Answer(kind, hash, s, e);
    if e.Begin? { BeginKeeps(kind, hash, s, e, r, t, latency); }
    else if e.Reissue? { ReissueKeeps(kind, hash, s, e, r, t, latency); }
    else if o == Some(LockedNow) { LockKeeps(kind, hash, s, e, r, t, latency); }
    else if o == Some(BadCode) { GuessKeeps(kind, hash, s, e, r, t, latency); }
    else { RefusalKeeps(kind, hash, s, e, r, t, latency); }
  }

  lemma RefusalKeeps(kind: Kind, hash: Hash, s: State, e: Event, r: Trace, t: int, latency: int)
    requires Kept(r, s, t, latency) && t <= e.at && e.Finish?
    requires var o := Answer(kind, hash, s, e); o != Some(Accepted) && o != Some(LockedNow) && o != Some(BadCode)
    ensures Kept(r, ChallengeRaces.Next(kind, hash, s, e), e.at, latency)
  {
    assert ChallengeRaces.Next(kind, hash, s, e).row == s.row;
  }

  /** More than k budgets of comparisons take at least k lockouts of time. */
  lemma TotalWithin(r: Trace, s: State, t: int, latency: int)
    requires 0 <= latency <= 2 * RESEND_COOLDOWN && Kept(r, s, t, latency)
    ensures Total(r) <= BUDGET * (1 + (t - r.from) / LOCKOUT_DURATION)
  {
    if r.locks > 0 {
      var k := r.locks;
      if r.guesses > 0 && r.guessesBefore + r.guesses > BUDGET {
        ManyCodes(r, s, t, latency);
        Lockouts(t - r.from, k);
      } else {
        Lockouts(t - r.from, k - 1);
      }
    }
  }

  /** More than a budget before the first lock and after the last takes four new
      codes, two of which wait for a cooldown. */
  lemma ManyCodes(r: Trace, s: State, t: int, latency: int)
    requires 0 <= latency <= 2 * RESEND_COOLDOWN && Kept(r, s, t, latency)
    requires r.locks > 0 && r.guesses > 0 && r.guessesBefore + r.guesses > BUDGET
    ensures t - r.from >= r.locks * LOCKOUT_DURATION
  {
    assert r.codes + r.codesBefore >= 4;
    assert t - r.from >= FreeFrom(r, latency) - r.from + (r.codes - 1) * RESEND_COOLDOWN;
  }

  lemma Lockouts(span: int, k: int)
    requires span >= k * LOCKOUT_DURATION
    ensures span / LOCKOUT_DURATION >= k
  {
  }

  lemma {:induction false} RunWithin(kind: Kind, hash: Hash, s: State, es: seq<Event>, r: Trace, t: int, to: int, latency: int)
    requires 0 <= latency <= 2 * RESEND_COOLDOWN && Kept(r, s, t, latency) && t <= to && During(es, t, to)
    requires NoneAccepted(kind, hash, s, es) && Timely(kind, hash, s, es, latency) && Reclears(kind, hash, s, es) == 0
    ensures Total(r) + ChallengeRaces.Comparisons(kind, hash, s, es) <= BUDGET * (1 + (to - r.from) / LOCKOUT_DURATION)
    decreases |es|
  {
    if es == [] {
      TotalWithin(r, s, t, latency);
      assert (t - r.from) / LOCKOUT_DURATION <= (to - r.from) / LOCKOUT_DURATION;
    } else {
      StepFollows(kind, hash, s, es[0], r, t, latency);
      RunWithin(kind, hash, ChallengeRaces.Next(kind, hash, s, es[0]), es[1..], Follow(kind, hash, s, es[0], r), es[0].at, to, latency);
    }
  }

  /** In every interleaving of confirms, none slower than two resend cooldowns
      and none clearing a lock again, the bound of whole transactions holds: a
      stretch of time W without a right code makes at most (L-1) * (1 + W /
      lockout) comparisons. */
  lemma BoundedIfPrompt(kind: Kind, hash: Hash, s: State, es: seq<Event>, from: int, to: int, latency: int)
    requires 0 <= latency <= 2 * RESEND_COOLDOWN && from <= to && Inv(s, from) && During(es, from, to)
    requires s.row.expiresAt.Some? ==> s.row.expiresAt.value <= from + CODE_TTL
    requires NoneAccepted(kind, hash, s, es) && Timely(kind, hash, s, es, latency) && Reclears(kind, hash, s, es) == 0
    ensures ChallengeRaces.Comparisons(kind, hash, s, es) <= BUDGET * (1 + (to - from) / LOCKOUT_DURATION)
  {
    RunWithin(kind, hash, s, es, Trace(from, 0, 0, 0, 0, 0), from, to, latency);
  }
}
