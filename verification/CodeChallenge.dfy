/** The emailed-code challenge shared by email verification and password reset:
    a budget of attempts per code, a lifetime budget, and a timed lock. Times
    are nanoseconds; each transaction is one step. */
module CodeChallenge {
  import opened Wrappers

  type Bytes = seq<bv8>
  type Hash = (Bytes, string) -> Bytes

  const SECOND: int := 1_000_000_000
  const CODE_TTL: int := 15 * 60 * SECOND
  const RESEND_COOLDOWN: int := 60 * SECOND
  const LOCKOUT_DURATION: int := 24 * 3600 * SECOND
  const MAX_ATTEMPTS: nat := 5
  const MAX_LIFETIME_ATTEMPTS: nat := 20

  datatype Kind = Verification | PasswordReset

  datatype Challenge = Challenge(
    verified: bool,
    codeHash: Bytes,
    salt: Bytes,
    expiresAt: Option<int>,
    attempts: nat,
    lifetime: nat,
    lockedUntil: Option<int>,
    lastSent: Option<int>)

  datatype Outcome = Unusable | AccountLocked | Expired | Exhausted | LockedNow | BadCode | Accepted

  predicate IsLocked(lockedUntil: Option<int>, now: int) {
    lockedUntil.Some? && lockedUntil.value > now
  }

  predicate IsExpired(expiresAt: Option<int>, now: int) {
    expiresAt.None? || expiresAt.value <= now
  }

  predicate CanResend(lastSent: Option<int>, now: int) {
    lastSent.None? || now - lastSent.value >= RESEND_COOLDOWN
  }

  /** A lock that has run out takes the lifetime count with it. */
  function Unlocked(c: Challenge): Challenge {
    if c.lockedUntil.Some? then c.(lifetime := 0, lockedUntil := None) else c
  }

  function Reserved(c: Challenge): Challenge {
    c.(attempts := c.attempts + 1, lifetime := c.lifetime + 1)
  }

  function Completed(kind: Kind, c: Challenge): Challenge {
    c.(verified := c.verified || kind == Verification, codeHash := [], salt := [], expiresAt := None,
       attempts := 0, lifetime := 0, lockedUntil := None)
  }

  /** One confirm transaction: the row it commits and how it answers. */
  function Confirm(kind: Kind, hash: Hash, c: Challenge, code: string, now: int): (Challenge, Outcome) {
    if kind == Verification && c.verified then (c, Unusable)
    else if IsLocked(c.lockedUntil, now) then (c, AccountLocked)
    else if c.salt == [] || c.codeHash == [] || IsExpired(c.expiresAt, now) then (c, Expired)
    else if c.attempts >= MAX_ATTEMPTS then (c, Exhausted)
    else
      var r := Reserved(Unlocked(c));
      if r.lifetime >= MAX_LIFETIME_ATTEMPTS then (r.(lockedUntil := Some(now + LOCKOUT_DURATION)), LockedNow)
      else if hash(c.salt, code) != c.codeHash then (r, BadCode)
      else (Completed(kind, r), Accepted)
  }

  /** One re-issue transaction: every silent case leaves the row alone. */
  function Issue(kind: Kind, c: Challenge, codeHash: Bytes, salt: Bytes, now: int): (Challenge, bool) {
    if (kind == Verification && c.verified) || IsLocked(c.lockedUntil, now) || !CanResend(c.lastSent, now) then (c, false)
    else (c.(codeHash := codeHash, salt := salt, expiresAt := Some(now + CODE_TTL), attempts := 0, lastSent := Some(now)), true)
  }

  // ---- runs -------------------------------------------------------------------

  datatype Event =
    | Try(at: int, code: string)
    | Resend(at: int, codeHash: Bytes, salt: Bytes)

  function Next(kind: Kind, hash: Hash, c: Challenge, e: Event): Challenge {
    match e
    case Try(at, code) => Confirm(kind, hash, c, code, at).0
    case Resend(at, codeHash, salt) => Issue(kind, c, codeHash, salt, at).0
  }

  predicate Compares(kind: Kind, hash: Hash, c: Challenge, e: Event) {
    e.Try? && var o := Confirm(kind, hash, c, e.code, e.at).1; o == BadCode || o == Accepted
  }

  /** How many code comparisons a run makes. */
  function Comparisons(kind: Kind, hash: Hash, c: Challenge, es: seq<Event>): nat
    decreases |es|
  {
    if es == [] then 0
    else (if Compares(kind, hash, c, es[0]) then 1 else 0) + Comparisons(kind, hash, Next(kind, hash, c, es[0]), es[1..])
  }

  /** The clock never goes back, and the run lies in [from, to]. */
  predicate Within(es: seq<Event>, from: int, to: int) {
    es == [] || (from <= es[0].at <= to && Within(es[1..], es[0].at, to))
  }

  predicate NoRightCode(kind: Kind, hash: Hash, c: Challenge, es: seq<Event>)
    decreases |es|
  {
    es == [] ||
    (&& (es[0].Try? ==> Confirm(kind, hash, c, es[0].code, es[0].at).1 != Accepted)
     && NoRightCode(kind, hash, Next(kind, hash, c, es[0]), es[1..]))
  }

  predicate NoReissue(kind: Kind, hash: Hash, c: Challenge, es: seq<Event>)
    decreases |es|
  {
    es == [] ||
    (&& (es[0].Resend? ==> !Issue(kind, c, es[0].codeHash, es[0].salt, es[0].at).1)
     && NoReissue(kind, hash, Next(kind, hash, c, es[0]), es[1..]))
  }

  /** What the lifetime budget still allows between now and `to`. */
  function Allowance(c: Challenge, now: int, to: int): int
    requires now <= to
  {
    if c.lockedUntil.Some? then
      var free := if c.lockedUntil.value > now then c.lockedUntil.value else now;
      if free > to then 0 else (MAX_LIFETIME_ATTEMPTS - 1) * (1 + (to - free) / LOCKOUT_DURATION)
    else
      (if c.lifetime < MAX_LIFETIME_ATTEMPTS then MAX_LIFETIME_ATTEMPTS - 1 - c.lifetime else 0)
      + (MAX_LIFETIME_ATTEMPTS - 1) * ((to - now) / LOCKOUT_DURATION)
  }

  lemma AllowanceShrinks(c: Challenge, t: int, now: int, to: int)
    requires t <= now <= to
    ensures 0 <= Allowance(c, now, to) <= Allowance(c, t, to)
  {
    assert (to - now) / LOCKOUT_DURATION <= (to - t) / LOCKOUT_DURATION;
  }

  lemma StepSpends(kind: Kind, hash: Hash, c: Challenge, e: Event, to: int)
    requires e.at <= to
    requires e.Try? ==> Confirm(kind, hash, c, e.code, e.at).1 != Accepted
    ensures (if Compares(kind, hash, c, e) then 1 else 0) + Allowance(Next(kind, hash, c, e), e.at, to)
            <= Allowance(c, e.at, to)
  {
    if to - e.at >= LOCKOUT_DURATION {
      assert (to - (e.at + LOCKOUT_DURATION)) / LOCKOUT_DURATION == (to - e.at) / LOCKOUT_DURATION - 1;
    }
  }

  lemma {:induction false} ComparisonsWithinAllowance(kind: Kind, hash: Hash, c: Challenge, es: seq<Event>, from: int, to: int)
    requires from <= to && Within(es, from, to) && NoRightCode(kind, hash, c, es)
    ensures Comparisons(kind, hash, c, es) <= Allowance(c, from, to)
    decreases |es|
  {
    AllowanceShrinks(c, from, if es == [] then from else es[0].at, to);
    if es != [] {
      StepSpends(kind, hash, c, es[0], to);
      ComparisonsWithinAllowance(kind, hash, Next(kind, hash, c, es[0]), es[1..], es[0].at, to);
    }
  }

  /** Whatever the row holds at its start, a stretch of time W in which no right
      code is used makes at most (L-1) * (1 + W / lockout) comparisons. */
  lemma BoundedGuesses(kind: Kind, hash: Hash, c: Challenge, es: seq<Event>, from: int, to: int)
    requires from <= to && Within(es, from, to) && NoRightCode(kind, hash, c, es)
    ensures Comparisons(kind, hash, c, es) <= (MAX_LIFETIME_ATTEMPTS - 1) * (1 + (to - from) / LOCKOUT_DURATION)
  {
    ComparisonsWithinAllowance(kind, hash, c, es, from, to);
    if c.lockedUntil.Some? && from < c.lockedUntil.value <= to {
      assert (to - c.lockedUntil.value) / LOCKOUT_DURATION <= (to - from) / LOCKOUT_DURATION;
    }
  }

  /** Until the next code is issued, at most MAX_ATTEMPTS comparisons in all. */
  lemma {:induction false} BoundedPerCode(kind: Kind, hash: Hash, c: Challenge, es: seq<Event>)
    requires NoReissue(kind, hash, c, es) && NoRightCode(kind, hash, c, es)
    ensures Comparisons(kind, hash, c, es) + (if c.attempts < MAX_ATTEMPTS then c.attempts else MAX_ATTEMPTS) <= MAX_ATTEMPTS
    decreases |es|
  {
    if es != [] {
      BoundedPerCode(kind, hash, Next(kind, hash, c, es[0]), es[1..]);
    }
  }

  /** Exactly when a code is accepted. */
  lemma AcceptedIff(kind: Kind, hash: Hash, c: Challenge, code: string, now: int)
    ensures Confirm(kind, hash, c, code, now).1 == Accepted <==>
            (&& !(kind == Verification && c.verified)
             && (c.lockedUntil.Some? ==> c.lockedUntil.value <= now)
             && c.salt != [] && c.codeHash != [] && c.expiresAt.Some? && now < c.expiresAt.value
             && c.attempts < MAX_ATTEMPTS
             && (c.lockedUntil.None? ==> c.lifetime < MAX_LIFETIME_ATTEMPTS - 1)
             && hash(c.salt, code) == c.codeHash)
  {
  }

  /** The other answers, in the order in which their causes are looked for. */
  lemma RefusedIff(kind: Kind, hash: Hash, c: Challenge, code: string, now: int)
    ensures var o := Confirm(kind, hash, c, code, now).1;
            var open := !(kind == Verification && c.verified) && (c.lockedUntil.Some? ==> c.lockedUntil.value <= now);
            var live := open && c.salt != [] && c.codeHash != [] && c.expiresAt.Some? && now < c.expiresAt.value;
            var counted := if c.lockedUntil.Some? then 1 else c.lifetime + 1;
            && (o == Unusable <==> kind == Verification && c.verified)
            && (o == AccountLocked <==> !(kind == Verification && c.verified) && c.lockedUntil.Some? && now < c.lockedUntil.value)
            && (o == Expired <==> open && !live)
            && (o == Exhausted <==> live && c.attempts >= MAX_ATTEMPTS)
            && (o == LockedNow <==> live && c.attempts < MAX_ATTEMPTS && counted >= MAX_LIFETIME_ATTEMPTS)
            && (o == BadCode <==> live && c.attempts < MAX_ATTEMPTS && counted < MAX_LIFETIME_ATTEMPTS
                                  && hash(c.salt, code) != c.codeHash)
  {
  }

  /** What a refusal leaves: nothing changed, or one attempt counted on a count
      that a run-out lock restarts, and for the last attempt a lock. */
  lemma RefusalCounts(kind: Kind, hash: Hash, c: Challenge, code: string, now: int)
    ensures var (d, o) := Confirm(kind, hash, c, code, now);
            var counted := if c.lockedUntil.Some? then 1 else c.lifetime + 1;
            && (o != BadCode && o != LockedNow && o != Accepted ==> d == c)
            && (o == BadCode || o == LockedNow ==> (
                  && d.attempts == c.attempts + 1 && d.lifetime == counted
                  && d.lockedUntil == (if o == LockedNow then Some(now + 24 * 3600 * 1_000_000_000) else None)
                  && d.codeHash == c.codeHash && d.salt == c.salt && d.expiresAt == c.expiresAt
                  && d.lastSent == c.lastSent && d.verified == c.verified))
  {
  }

  /** When a new code is sent, and what that leaves: a code good for a quarter
      of an hour, with a count of its own but the old count of the account. */
  lemma SentIff(kind: Kind, c: Challenge, codeHash: Bytes, salt: Bytes, now: int)
    ensures var (d, sent) := Issue(kind, c, codeHash, salt, now);
            && (sent <==>
                  && !(kind == Verification && c.verified)
                  && (c.lockedUntil.Some? ==> c.lockedUntil.value <= now)
                  && (c.lastSent.Some? ==> now - c.lastSent.value >= 60 * 1_000_000_000))
            && (!sent ==> d == c)
            && (sent ==> (
                  && d.codeHash == codeHash && d.salt == salt && d.attempts == 0
                  && d.expiresAt == Some(now + 15 * 60 * 1_000_000_000) && d.lastSent == Some(now)
                  && d.lifetime == c.lifetime && d.lockedUntil == c.lockedUntil && d.verified == c.verified))
  {
  }

  /** What an acceptance leaves: the code is gone, the counts and the lock are
      back at their start, and a verified email stays verified. */
  lemma AcceptanceSpends(kind: Kind, hash: Hash, c: Challenge, code: string, now: int)
    requires Confirm(kind, hash, c, code, now).1 == Accepted
    ensures var d := Confirm(kind, hash, c, code, now).0;
            && d.codeHash == [] && d.salt == [] && d.expiresAt.None? && d.lastSent == c.lastSent
            && d.attempts == 0 && d.lifetime == 0 && d.lockedUntil.None?
            && (d.verified <==> c.verified || kind == Verification)
  {
  }

  lemma {:induction false} NoCodeNoComparison(kind: Kind, hash: Hash, c: Challenge, es: seq<Event>)
    requires c.codeHash == [] && NoReissue(kind, hash, c, es)
    ensures Comparisons(kind, hash, c, es) == 0
    decreases |es|
  {
    if es != [] { NoCodeNoComparison(kind, hash, Next(kind, hash, c, es[0]), es[1..]); }
  }

  lemma {:induction false} VerifiedStays(hash: Hash, c: Challenge, es: seq<Event>)
    requires c.verified
    ensures Comparisons(Verification, hash, c, es) == 0 && NoReissue(Verification, hash, c, es)
    decreases |es|
  {
    if es != [] { VerifiedStays(hash, Next(Verification, hash, c, es[0]), es[1..]); }
  }

  /** A code is good for one acceptance: after it, until the next code is sent,
      nothing is compared any more; and once the email is verified, no code is
      ever sent or compared again. */
  lemma UsedOnce(kind: Kind, hash: Hash, c: Challenge, code: string, now: int, es: seq<Event>)
    requires Confirm(kind, hash, c, code, now).1 == Accepted
    ensures var d := Confirm(kind, hash, c, code, now).0;
            && (NoReissue(kind, hash, d, es) ==> Comparisons(kind, hash, d, es) == 0)
            && (kind == Verification ==> d.verified && Comparisons(kind, hash, d, es) == 0 && NoReissue(kind, hash, d, es))
  {
    AcceptanceSpends(kind, hash, c, code, now);
    var d := Confirm(kind, hash, c, code, now).0;
    if NoReissue(kind, hash, d, es) { NoCodeNoComparison(kind, hash, d, es); }
    if kind == Verification { VerifiedStays(hash, d, es); }
  }

  /** A lock that has run out does not outlive its time: the holder of the inbox
      asks for a new code and that code is accepted until it expires. */
  lemma RecoversAfterLock(kind: Kind, hash: Hash, c: Challenge, salt: Bytes, code: string, now: int, later: int)
    requires c.lockedUntil.Some? && c.lockedUntil.value <= now && CanResend(c.lastSent, now)
    requires kind == Verification ==> !c.verified
    requires salt != [] && hash(salt, code) != []
    requires now <= later < now + CODE_TTL
    ensures var (issued, sent) := Issue(kind, c, hash(salt, code), salt, now);
            sent && Confirm(kind, hash, issued, code, later) == (Completed(kind, Reserved(Unlocked(issued))), Accepted)
  {
    AcceptedIff(kind, hash, Issue(kind, c, hash(salt, code), salt, now).0, code, later);
  }

  // ---- the control panel's own check ------------------------------------------

  /** confirmVerification of the control panel: the same guards, but neither a
      lock that has run out nor a success restarts the lifetime count. */
  function PanelConfirm(hash: Hash, c: Challenge, code: string, now: int): (Challenge, Outcome) {
    if c.verified then (c, Unusable)
    else if IsLocked(c.lockedUntil, now) then (c, AccountLocked)
    else if IsExpired(c.expiresAt, now) || c.salt == [] || c.codeHash == [] then (c, Expired)
    else if c.attempts >= MAX_ATTEMPTS then (c, Exhausted)
    else
      var r := Reserved(c);
      if r.lifetime >= MAX_LIFETIME_ATTEMPTS then (r.(lockedUntil := Some(now + LOCKOUT_DURATION)), LockedNow)
      else if hash(c.salt, code) != c.codeHash then (r, BadCode)
      else (r.(verified := true, codeHash := [], salt := [], expiresAt := None, attempts := 0), Accepted)
  }

  function PanelNext(hash: Hash, c: Challenge, e: Event): Challenge {
    match e
    case Try(at, code) => PanelConfirm(hash, c, code, at).0
    case Resend(at, codeHash, salt) => Issue(PasswordReset, c, codeHash, salt, at).0
  }

  function PanelComparisons(hash: Hash, c: Challenge, es: seq<Event>): nat
    decreases |es|
  {
    if es == [] then 0
    else
      var o := if es[0].Try? then PanelConfirm(hash, c, es[0].code, es[0].at).1 else Unusable;
      (if o == BadCode || o == Accepted then 1 else 0) + PanelComparisons(hash, PanelNext(hash, c, es[0]), es[1..])
  }

  /** There the lifetime budget really is for life: after L-1 comparisons, over
      any time and any number of codes, there is never another one. */
  lemma {:induction false} PanelBudgetForLife(hash: Hash, c: Challenge, es: seq<Event>)
    ensures PanelComparisons(hash, c, es)
            <= if c.lifetime < MAX_LIFETIME_ATTEMPTS - 1 then MAX_LIFETIME_ATTEMPTS - 1 - c.lifetime else 0
    decreases |es|
  {
    if es != [] { PanelBudgetForLife(hash, PanelNext(hash, c, es[0]), es[1..]); }
  }

  /** Exactly when the panel accepts a code: a lock that has run out waives nothing. */
  lemma PanelAcceptedIff(hash: Hash, c: Challenge, code: string, now: int)
    ensures PanelConfirm(hash, c, code, now).1 == Accepted <==>
            (&& !c.verified && (c.lockedUntil.Some? ==> c.lockedUntil.value <= now)
             && c.salt != [] && c.codeHash != [] && c.expiresAt.Some? && now < c.expiresAt.value
             && c.attempts < MAX_ATTEMPTS && c.lifetime < MAX_LIFETIME_ATTEMPTS - 1
             && hash(c.salt, code) == c.codeHash)
  {
  }

  /** The panel too accepts a code once: the account is verified and nothing is
      compared any more, whatever is sent. */
  lemma PanelUsedOnce(hash: Hash, c: Challenge, code: string, now: int, es: seq<Event>)
    requires PanelConfirm(hash, c, code, now).1 == Accepted
    ensures var d := PanelConfirm(hash, c, code, now).0;
            && d.verified && d.codeHash == [] && d.salt == [] && d.expiresAt.None? && d.attempts == 0
            && d.lifetime == c.lifetime + 1 && d.lockedUntil == c.lockedUntil && d.lastSent == c.lastSent
            && PanelComparisons(hash, d, es) == 0
  {
    PanelVerifiedStays(hash, PanelConfirm(hash, c, code, now).0, es);
  }

  lemma {:induction false} PanelVerifiedStays(hash: Hash, c: Challenge, es: seq<Event>)
    requires c.verified
    ensures PanelComparisons(hash, c, es) == 0
    decreases |es|
  {
    if es != [] { PanelVerifiedStays(hash, PanelNext(hash, c, es[0]), es[1..]); }
  }

  /** On one and the same row, a player's code is accepted where the panel does
      not accept it if and only if a lock has run out and the count stands at
      the cap or one below; then the panel locks again. */
  lemma PanelNeverRecovers(hash: Hash, c: Challenge, code: string, now: int)
    requires Confirm(Verification, hash, c, code, now).1 == Accepted
    ensures PanelConfirm(hash, c, code, now).1 != Accepted <==>
              c.lockedUntil.Some? && c.lifetime >= MAX_LIFETIME_ATTEMPTS - 1
    ensures PanelConfirm(hash, c, code, now).1 != Accepted ==> PanelConfirm(hash, c, code, now).1 == LockedNow
  {
    AcceptedIff(Verification, hash, c, code, now);
  }

  function PanelRun(hash: Hash, c: Challenge, es: seq<Event>): Challenge
    decreases |es|
  {
    if es == [] then c else PanelRun(hash, PanelNext(hash, c, es[0]), es[1..])
  }

  /** Only a count at the cap locks, and the count never falls. */
  lemma {:induction false} PanelRunKeeps(hash: Hash, c: Challenge, es: seq<Event>)
    requires c.lockedUntil.Some? ==> c.lifetime >= MAX_LIFETIME_ATTEMPTS
    ensures var d := PanelRun(hash, c, es);
            d.lifetime >= c.lifetime && (d.lockedUntil.Some? ==> d.lifetime >= MAX_LIFETIME_ATTEMPTS)
    decreases |es|
  {
    if es != [] { PanelRunKeeps(hash, PanelNext(hash, c, es[0]), es[1..]); }
  }

  /** An account that was locked once in a run from an unlocked row never has a
      code accepted again, at any time and whatever is sent to it. */
  lemma PanelLockedForGood(hash: Hash, c: Challenge, es: seq<Event>, more: seq<Event>, code: string, now: int)
    requires c.lockedUntil.None? && PanelRun(hash, c, es).lockedUntil.Some?
    ensures PanelConfirm(hash, PanelRun(hash, PanelRun(hash, c, es), more), code, now).1 != Accepted
  {
    var d := PanelRun(hash, c, es);
    PanelRunKeeps(hash, c, es);
    PanelRunKeeps(hash, d, more);
    PanelAcceptedIff(hash, PanelRun(hash, d, more), code, now);
  }

  // ---- a run that locks an account --------------------------------------------------

  function Tries(n: nat, at: int, code: string): seq<Event> {
    if n == 0 then [] else [Try(at, code)] + Tries(n - 1, at, code)
  }

  /** A code is out that the guess does not match. */
  predicate Guessable(hash: Hash, c: Challenge, at: int, guess: string) {
    && !c.verified && c.salt != [] && c.codeHash != [] && !IsExpired(c.expiresAt, at)
    && hash(c.salt, guess) != c.codeHash
  }

  lemma {:induction false} PanelGuesses(hash: Hash, c: Challenge, n: nat, at: int, guess: string)
    requires Guessable(hash, c, at, guess) && c.lockedUntil.None?
    requires c.attempts + n <= MAX_ATTEMPTS && c.lifetime + n < MAX_LIFETIME_ATTEMPTS
    ensures PanelRun(hash, c, Tries(n, at, guess)) == c.(attempts := c.attempts + n, lifetime := c.lifetime + n)
    decreases n
  {
    if n > 0 {
      var d := c.(attempts := c.attempts + 1, lifetime := c.lifetime + 1);
      assert PanelNext(hash, c, Try(at, guess)) == d;
      PanelGuesses(hash, d, n - 1, at, guess);
      assert Tries(n, at, guess)[1..] == Tries(n - 1, at, guess);
    }
  }

  lemma {:induction false} PanelRunJoins(hash: Hash, c: Challenge, es: seq<Event>, fs: seq<Event>)
    ensures PanelRun(hash, c, es + fs) == PanelRun(hash, PanelRun(hash, c, es), fs)
    decreases |es|
  {
    if es == [] {
      assert es + fs == fs;
    } else {
      assert (es + fs)[1..] == es[1..] + fs;
      PanelRunJoins(hash, PanelNext(hash, c, es[0]), es[1..], fs);
    }
  }

  /** A code is sent and n wrong guesses follow at once. */
  function Round(n: nat, at: int, codeHash: Bytes, salt: Bytes, guess: string): seq<Event> {
    [Resend(at, codeHash, salt)] + Tries(n, at, guess)
  }

  /** A row just after such a round, with a count of k in all. */
  function AfterRound(k: nat, n: nat, at: int, codeHash: Bytes, salt: Bytes): Challenge {
    Challenge(false, codeHash, salt, Some(at + CODE_TTL), n, k, None, Some(at))
  }

  lemma PanelRound(hash: Hash, c: Challenge, n: nat, at: int, codeHash: Bytes, salt: Bytes, guess: string)
    requires !c.verified && c.lockedUntil.None? && CanResend(c.lastSent, at) && n <= MAX_ATTEMPTS
    requires c.lifetime + n < MAX_LIFETIME_ATTEMPTS && salt != [] && codeHash != [] && hash(salt, guess) != codeHash
    ensures PanelRun(hash, c, Round(n, at, codeHash, salt, guess)) == AfterRound(c.lifetime + n, n, at, codeHash, salt)
  {
    var d := AfterRound(c.lifetime, 0, at, codeHash, salt);
    assert PanelNext(hash, c, Resend(at, codeHash, salt)) == d;
    PanelGuesses(hash, d, n, at, guess);
    assert Round(n, at, codeHash, salt, guess)[1..] == Tries(n, at, guess);
  }

  /** Four codes and twenty wrong guesses lock a new account; the next code,
      sent after the lock has run out and entered right, locks it again, where
      a player with the same row is verified. */
  lemma LockedAccount(hash: Hash, codeHash: Bytes, salt: Bytes, right: string, wrong: string) returns (es: seq<Event>, c: Challenge)
    requires salt != [] && codeHash != [] && hash(salt, right) == codeHash && hash(salt, wrong) != codeHash
    ensures c == PanelRun(hash, Challenge(false, [], [], None, 0, 0, None, None), es)
    ensures c.lockedUntil.Some? && c.lifetime == MAX_LIFETIME_ATTEMPTS
    ensures var later := c.lockedUntil.value;
            var d := PanelNext(hash, c, Resend(later, codeHash, salt));
            PanelConfirm(hash, d, right, later).1 == LockedNow && Confirm(Verification, hash, d, right, later).1 == Accepted
  {
    var start := Challenge(false, [], [], None, 0, 0, None, None);
    var t := RESEND_COOLDOWN;
    var r0, r1 := Round(5, 0, codeHash, salt, wrong), Round(5, t, codeHash, salt, wrong);
    var r2, r3 := Round(5, 2 * t, codeHash, salt, wrong), Round(4, 3 * t, codeHash, salt, wrong);
    var c0, c1 := AfterRound(5, 5, 0, codeHash, salt), AfterRound(10, 5, t, codeHash, salt);
    var c2, c3 := AfterRound(15, 5, 2 * t, codeHash, salt), AfterRound(19, 4, 3 * t, codeHash, salt);
    PanelRound(hash, start, 5, 0, codeHash, salt, wrong);
    PanelRound(hash, c0, 5, t, codeHash, salt, wrong);
    PanelRound(hash, c1, 5, 2 * t, codeHash, salt, wrong);
    PanelRound(hash, c2, 4, 3 * t, codeHash, salt, wrong);
    PanelRunJoins(hash, start, r0, r1);
    PanelRunJoins(hash, start, r0 + r1, r2);
    PanelRunJoins(hash, start, r0 + r1 + r2, r3);
    var last := [Try(3 * t, wrong)];
    PanelRunJoins(hash, start, r0 + r1 + r2 + r3, last);
    es := r0 + r1 + r2 + r3 + last;
    c := PanelNext(hash, c3, last[0]);
    assert PanelRun(hash, c3, last) == PanelRun(hash, c, last[1..]) == c;
    AfterLock(hash, c, codeHash, salt, right);
  }

  lemma AfterLock(hash: Hash, c: Challenge, codeHash: Bytes, salt: Bytes, right: string)
    requires !c.verified && c.lockedUntil.Some? && c.lifetime >= MAX_LIFETIME_ATTEMPTS
    requires CanResend(c.lastSent, c.lockedUntil.value) && salt != [] && codeHash != [] && hash(salt, right) == codeHash
    ensures var later := c.lockedUntil.value;
            var d := PanelNext(hash, c, Resend(later, codeHash, salt));
            PanelConfirm(hash, d, right, later).1 == LockedNow && Confirm(Verification, hash, d, right, later).1 == Accepted
  {
  }

  // ---- the handlers -------------------------------------------------------------

  datatype VerifyError = ErrAccountLocked | ErrExpired | ErrExhausted

  /** The challenge columns of one player row. */
  class PlayerRow {
    const kind: Kind
    const hash: Hash
    var verified: bool
    var codeHash: Bytes
    var salt: Bytes
    var expiresAt: Option<int>
    var attempts: nat
    var lifetime: nat
    var lockedUntil: Option<int>
    var lastSent: Option<int>

    constructor (kind: Kind, hash: Hash, c: Challenge)
      ensures this.kind == kind && this.hash == hash && Row() == c
    {
      this.kind, this.hash := kind, hash;
      verified, codeHash, salt, expiresAt := c.verified, c.codeHash, c.salt, c.expiresAt;
      attempts, lifetime, lockedUntil, lastSent := c.attempts, c.lifetime, c.lockedUntil, c.lastSent;
    }

    function Row(): Challenge
      reads this
    {
      Challenge(verified, codeHash, salt, expiresAt, attempts, lifetime, lockedUntil, lastSent)
    }

    method Rollback(saved: Challenge)
      modifies this
      ensures Row() == saved
    {
      verified, codeHash, salt, expiresAt := saved.verified, saved.codeHash, saved.salt, saved.expiresAt;
      attempts, lifetime, lockedUntil, lastSent := saved.attempts, saved.lifetime, saved.lockedUntil, saved.lastSent;
    }

    /** The guard sequence. With locked or badCode the caller must commit; with
        an error it must roll back, since the lock may already be cleared. */
    method CheckCodeChallenge(s: Challenge, code: string, now: int)
      returns (locked: bool, badCode: bool, err: Option<VerifyError>)
      requires s == Row()
      modifies this
      ensures var (c, o) := Confirm(PasswordReset, hash, s, code, now);
              && (locked <==> o == LockedNow) && (badCode <==> o == BadCode)
              && err == (match o case AccountLocked => Some(ErrAccountLocked) case Expired => Some(ErrExpired)
                                 case Exhausted => Some(ErrExhausted) case _ => None)
              && Row() == (if locked || badCode then c
                           else if o == Accepted then Reserved(Unlocked(s))
                           else if o == AccountLocked then s else Unlocked(s))
    {
      locked, badCode, err := false, false, None;
      if s.lockedUntil.Some? {
        if IsLocked(s.lockedUntil, now) { return false, false, Some(ErrAccountLocked); }
        lifetime, lockedUntil := 0, None;
      }
      if s.salt == [] || s.codeHash == [] { return false, false, Some(ErrExpired); }
      if IsExpired(s.expiresAt, now) { return false, false, Some(ErrExpired); }
      if attempts >= MAX_ATTEMPTS { return false, false, Some(ErrExhausted); }
      attempts, lifetime := attempts + 1, lifetime + 1;
      if lifetime >= MAX_LIFETIME_ATTEMPTS {
        lockedUntil := Some(now + LOCKOUT_DURATION);
        return true, false, None;
      }
      if hash(s.salt, code) != s.codeHash { return false, true, None; }
    }

    /** authVerify and resetConfirm: the transaction around the check. */
    method ConfirmCode(code: string, now: int) returns (o: Outcome)
      modifies this
      ensures (Row(), o) == Confirm(kind, hash, old(Row()), code, now)
    {
      if kind == Verification && verified { return Unusable; }
      var saved := Row();
      var locked, badCode, err := CheckCodeChallenge(saved, code, now);
      match err
      case Some(e) =>
        Rollback(saved);
        return match e case ErrAccountLocked => AccountLocked case ErrExpired => Expired case ErrExhausted => Exhausted;
      case None =>
        if locked { return LockedNow; }
        if badCode { return BadCode; }
        verified := verified || kind == Verification;
        codeHash, salt, expiresAt, attempts, lifetime, lockedUntil := [], [], None, 0, 0, None;
        return Accepted;
    }

    /** resendVerify and resetRequest: send says whether a code is mailed. */
    method ReissueCode(newHash: Bytes, newSalt: Bytes, now: int) returns (send: bool)
      modifies this
      ensures (Row(), send) == Issue(kind, old(Row()), newHash, newSalt, now)
    {
      if kind == Verification && verified { return false; }
      if lockedUntil.Some? && IsLocked(lockedUntil, now) { return false; }
      if lastSent.Some? && !CanResend(lastSent, now) { return false; }
      codeHash, salt, expiresAt, attempts, lastSent := newHash, newSalt, Some(now + CODE_TTL), 0, Some(now);
      return true;
    }
  }
}
