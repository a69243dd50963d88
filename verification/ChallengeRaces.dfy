/** The emailed-code challenge below transaction level. A confirm reads the row
    without a lock; its first write takes the row lock until the commit, so the
    rest of it is one step on the row as it is by then. What it compares, and
    whether it clears a lock, comes from the row it read; its clock reading is
    older still. A re-issue is one step. Events carry the time at which they
    happen. */
module ChallengeRaces {
  import opened Wrappers
  import opened CodeChallenge

  type CallId = nat

  /** A confirm in flight, with the row it read and its earlier clock reading. */
  datatype Attempt = Attempt(seen: Challenge, code: string, now: int)

  datatype State = State(row: Challenge, calls: map<CallId, Attempt>)

  datatype Event =
    | Begin(call: CallId, code: string, now: int, at: int)
    | Finish(call: CallId, at: int)
    | Reissue(at: int, codeHash: Bytes, salt: Bytes)

  /** The rest of a confirm. A password reset completes only if the code it
      compared is still the one stored. */
  function Check(kind: Kind, hash: Hash, a: Attempt, row: Challenge): (Challenge, Outcome) {
    var seen := a.seen;
    if kind == Verification && seen.verified then (row, Unusable)
    else if IsLocked(seen.lockedUntil, a.now) then (row, AccountLocked)
    else if seen.salt == [] || seen.codeHash == [] || IsExpired(seen.expiresAt, a.now) then (row, CodeChallenge.Expired)
    else if row.attempts >= MAX_ATTEMPTS then (row, Exhausted)
    else
      var cleared := if seen.lockedUntil.Some? then row.(lifetime := 0, lockedUntil := None) else row;
      var r := Reserved(cleared);
      if r.lifetime >= MAX_LIFETIME_ATTEMPTS then (r.(lockedUntil := Some(a.now + LOCKOUT_DURATION)), LockedNow)
      else if hash(seen.salt, a.code) != seen.codeHash then (r, BadCode)
      else if kind == PasswordReset && row.codeHash != seen.codeHash then (r, BadCode)
      else (Completed(kind, r), Accepted)
  }

  function Next(kind: Kind, hash: Hash, s: State, e: Event): State {
    match e
    case Begin(c, code, now, at) => if c in s.calls then s else s.(calls := s.calls[c := Attempt(s.row, code, now)])
    case Finish(c, at) =>
      if c !in s.calls then s else State(Check(kind, hash, s.calls[c], s.row).0, s.calls - {c})
    case Reissue(at, codeHash, salt) => s.(row := Issue(kind, s.row, codeHash, salt, at).0)
  }

  function Run(kind: Kind, hash: Hash, s: State, es: seq<Event>): State
    decreases |es|
  {
    if es == [] then s else Run(kind, hash, Next(kind, hash, s, es[0]), es[1..])
  }

  /** How a finishing confirm answers. */
  function Answer(kind: Kind, hash: Hash, s: State, e: Event): Option<Outcome> {
    if e.Finish? && e.call in s.calls then Some(Check(kind, hash, s.calls[e.call], s.row).1) else None
  }

  predicate Compares(kind: Kind, hash: Hash, s: State, e: Event) {
    var o := Answer(kind, hash, s, e); o == Some(BadCode) || o == Some(Accepted)
  }

  function Comparisons(kind: Kind, hash: Hash, s: State, es: seq<Event>): nat
    decreases |es|
  {
    if es == [] then 0
    else (if Compares(kind, hash, s, es[0]) then 1 else 0) + Comparisons(kind, hash, Next(kind, hash, s, es[0]), es[1..])
  }

  /** The confirm commits a clearing of a lock that is no longer the one it read. */
  predicate ClearsAgain(kind: Kind, hash: Hash, s: State, e: Event) {
    var o := Answer(kind, hash, s, e);
    && (o == Some(BadCode) || o == Some(Accepted) || o == Some(LockedNow))
    && s.calls[e.call].seen.lockedUntil.Some? && s.row.lockedUntil != s.calls[e.call].seen.lockedUntil
  }

  function Reclears(kind: Kind, hash: Hash, s: State, es: seq<Event>): nat
    decreases |es|
  {
    if es == [] then 0
    else (if ClearsAgain(kind, hash, s, es[0]) then 1 else 0) + Reclears(kind, hash, Next(kind, hash, s, es[0]), es[1..])
  }

  predicate NoneAccepted(kind: Kind, hash: Hash, s: State, es: seq<Event>)
    decreases |es|
  {
    es == [] ||
    (Answer(kind, hash, s, es[0]) != Some(Accepted) && NoneAccepted(kind, hash, Next(kind, hash, s, es[0]), es[1..]))
  }

  /** The clock never goes back, and the run lies in [from, to]. */
  predicate During(es: seq<Event>, from: int, to: int) {
    es == [] || (from <= es[0].at <= to && During(es[1..], es[0].at, to))
  }

  /** A clock reading comes before the row is read. */
  predicate InTime(s: State, e: Event, latency: int) {
    match e
    case Begin(_, _, now, at) => now <= at
    case Finish(c, at) => c in s.calls ==> at <= s.calls[c].now + latency
    case Reissue(_, _, _) => true
  }

  /** No confirm takes longer than the latency from its clock reading to its end. */
  predicate Timely(kind: Kind, hash: Hash, s: State, es: seq<Event>, latency: int)
    decreases |es|
  {
    es == [] || (InTime(s, es[0], latency) && Timely(kind, hash, Next(kind, hash, s, es[0]), es[1..], latency))
  }

  /** A lock stands for a used-up count; calls in flight read the clock in the past. */
  ghost predicate Inv(s: State, t: int) {
    && (s.row.lockedUntil.Some? ==> s.row.lifetime >= MAX_LIFETIME_ATTEMPTS)
    && (forall c | c in s.calls :: s.calls[c].now <= t)
  }

  lemma StepKeeps(kind: Kind, hash: Hash, s: State, e: Event, t: int, latency: int)
    requires Inv(s, t) && t <= e.at && InTime(s, e, latency)
    ensures Inv(Next(kind, hash, s, e), e.at)
  {
  }

  /** With nothing in between, a confirm is the transaction of CodeChallenge. */
  lemma AloneIsConfirm(kind: Kind, hash: Hash, c: Challenge, code: string, now: int)
    ensures Check(kind, hash, Attempt(c, code, now), c) == Confirm(kind, hash, c, code, now)
  {
  }

  /** When a confirm that others may have overtaken is accepted: by the row it
      read for the code and its time, by the present row for the counts; and a
      password reset only for the code that is still stored. */
  lemma OvertakenAcceptedIff(kind: Kind, hash: Hash, a: Attempt, row: Challenge)
    ensures Check(kind, hash, a, row).1 == Accepted <==>
            (&& !(kind == Verification && a.seen.verified)
             && (a.seen.lockedUntil.Some? ==> a.seen.lockedUntil.value <= a.now)
             && a.seen.salt != [] && a.seen.codeHash != [] && a.seen.expiresAt.Some? && a.now < a.seen.expiresAt.value
             && row.attempts < MAX_ATTEMPTS
             && (a.seen.lockedUntil.None? ==> row.lifetime < MAX_LIFETIME_ATTEMPTS - 1)
             && hash(a.seen.salt, a.code) == a.seen.codeHash
             && (kind == PasswordReset ==> row.codeHash == a.seen.codeHash))
  {
  }

  // ---- what latency and repeated clearing cost ------------------------------------------

  const BUDGET: nat := MAX_LIFETIME_ATTEMPTS - 1

  lemma Whole(x: int, y: int, p: int)
    requires 0 < p
    ensures (x - p) / p == x / p - 1
    ensures x <= y ==> x / p <= y / p
  {
    DivMod(x, p);
    DivMod(x - p, p);
    DivMod(y, p);
    Times(p, x / p - y / p);
    assert p * (x / p - y / p) == p * (x / p) - p * (y / p);
    Times(p, (x - p) / p - (x / p - 1));
    assert p * ((x - p) / p - (x / p - 1)) == p * ((x - p) / p) - p * (x / p) + p;
  }

  lemma Times(p: int, k: int)
    requires 0 < p
    ensures (k >= 1 ==> p * k >= p) && (k <= -1 ==> p * k <= -p)
  {
    assert k >= 1 ==> p * (k - 1) >= 0;
    assert k <= -1 ==> p * (-1 - k) >= 0;
  }

  lemma DivMod(x: int, p: int)
    requires 0 < p
    ensures p * (x / p) <= x < p * (x / p) + p
  {
  }

  /** What the budgets still allow until `to`, when a lock written at lockedAt
      stands for at least the period from there. */
  function Room(c: Challenge, lockedAt: int, now: int, to: int, period: int): int
    requires now <= to && 0 < period
  {
    if c.lockedUntil.Some? then
      var free := if lockedAt + period > now then lockedAt + period else now;
      if free > to then 0 else BUDGET * (1 + (to - free) / period)
    else (if c.lifetime < MAX_LIFETIME_ATTEMPTS then BUDGET - c.lifetime else 0) + BUDGET * ((to - now) / period)
  }

  /** Since when the lock of the row stands. */
  function LockedAt(kind: Kind, hash: Hash, s: State, e: Event, lockedAt: int): int {
    if Answer(kind, hash, s, e) == Some(LockedNow) then e.at else lockedAt
  }

  ghost predicate Stands(s: State, lockedAt: int, t: int, period: int) {
    s.row.lockedUntil.Some? ==> lockedAt <= t && lockedAt + period <= s.row.lockedUntil.value
  }

  lemma RoomAtLeast(c: Challenge, lockedAt: int, now: int, to: int, period: int)
    requires now <= to && 0 < period && (c.lockedUntil.Some? ==> lockedAt <= now)
    ensures Room(c, lockedAt, now, to, period) >= BUDGET * ((to - now) / period) && (to - now) / period >= 0
  {
    Whole(0, to - now, period);
    if c.lockedUntil.Some? {
      var free := if lockedAt + period > now then lockedAt + period else now;
      Whole(to - now, to - free + period, period);
      Whole(to - free + period, to - free, period);
      if free <= to { Whole(0, to - free, period); } else { Whole(to - now, period - 1, period); DivMod(period - 1, period); NoWhole(period); }
    }
  }

  lemma NoWhole(p: int)
    requires 0 < p
    ensures (p - 1) / p == 0
  {
  }

  lemma RoomShrinks(c: Challenge, lockedAt: int, t: int, now: int, to: int, period: int)
    requires t <= now <= to && 0 < period
    ensures 0 <= Room(c, lockedAt, now, to, period) <= Room(c, lockedAt, t, to, period)
  {
    Whole(to - now, to - t, period);
    Whole(0, to - now, period);
    if c.lockedUntil.Some? {
      var f1 := if lockedAt + period > t then lockedAt + period else t;
      var f2 := if lockedAt + period > now then lockedAt + period else now;
      Whole(to - f2, to - f1, period);
      if f2 <= to { Whole(0, to - f2, period); }
      if f1 <= to { Whole(0, to - f1, period); }
    }
  }

  /** A new lock leaves the budgets of the full periods after it. */
  lemma RoomAfterLock(c: Challenge, now: int, to: int, period: int)
    requires now <= to && 0 < period && c.lockedUntil.Some?
    ensures Room(c, now, now, to, period) <= BUDGET * ((to - now) / period)
  {
    Whole(to - now, 0, period);
    Whole(0, to - now, period);
    assert to - (now + period) == to - now - period;
  }

  /** A step spends from the room, and only clearing a lock again gives any back:
      at most one budget. */
  lemma StepSpends(kind: Kind, hash: Hash, s: State, e: Event, lockedAt: int, t: int, to: int, latency: int)
    requires 0 <= latency < LOCKOUT_DURATION && Inv(s, t) && t <= e.at <= to && InTime(s, e, latency)
    requires Stands(s, lockedAt, t, LOCKOUT_DURATION - latency) && Answer(kind, hash, s, e) != Some(Accepted)
    ensures var p := LOCKOUT_DURATION - latency; var u := Next(kind, hash, s, e); var w := LockedAt(kind, hash, s, e, lockedAt);
            && Stands(u, w, e.at, p)
            && (if Compares(kind, hash, s, e) then 1 else 0) + Room(u.row, w, e.at, to, p)
               <= Room(s.row, lockedAt, e.at, to, p) + if ClearsAgain(kind, hash, s, e) then BUDGET else 0
  {
    var p := LOCKOUT_DURATION - latency;
    RoomAtLeast(s.row, lockedAt, e.at, to, p);
    if Answer(kind, hash, s, e) == Some(LockedNow) { RoomAfterLock(Next(kind, hash, s, e).row, e.at, to, p); }
  }

  lemma {:induction false} RunSpends(kind: Kind, hash: Hash, s: State, es: seq<Event>, lockedAt: int, from: int, to: int, latency: int)
    requires 0 <= latency < LOCKOUT_DURATION && from <= to && Inv(s, from) && During(es, from, to)
    requires Stands(s, lockedAt, from, LOCKOUT_DURATION - latency)
    requires NoneAccepted(kind, hash, s, es) && Timely(kind, hash, s, es, latency)
    ensures Comparisons(kind, hash, s, es)
            <= Room(s.row, lockedAt, from, to, LOCKOUT_DURATION - latency) + BUDGET * Reclears(kind, hash, s, es)
    decreases |es|
  {
    RoomShrinks(s.row, lockedAt, from, if es == [] then from else es[0].at, to, LOCKOUT_DURATION - latency);
    if es != [] {
      var u, w := Next(kind, hash, s, es[0]), LockedAt(kind, hash, s, es[0], lockedAt);
      StepSpends(kind, hash, s, es[0], lockedAt, from, to, latency);
      StepKeeps(kind, hash, s, es[0], from, latency);
      RunSpends(kind, hash, u, es[1..], w, es[0].at, to, latency);
    }
  }

  /** In every interleaving of confirms of bounded latency, a stretch of time W
      in which no right code is used makes at most (L-1) * (1 + W / (lockout -
      latency)) comparisons, and L-1 more for each lock cleared again. */
  lemma BoundedWithRaces(kind: Kind, hash: Hash, s: State, es: seq<Event>, from: int, to: int, latency: int)
    requires 0 <= latency < LOCKOUT_DURATION && from <= to && Inv(s, from) && During(es, from, to)
    requires NoneAccepted(kind, hash, s, es) && Timely(kind, hash, s, es, latency)
    ensures Comparisons(kind, hash, s, es)
            <= BUDGET * (1 + (to - from) / (LOCKOUT_DURATION - latency) + Reclears(kind, hash, s, es))
  {
    var p := LOCKOUT_DURATION - latency;
    var until := if s.row.lockedUntil.Some? then s.row.lockedUntil.value else from;
    var lockedAt := if until - p < from then until - p else from;
    RunSpends(kind, hash, s, es, lockedAt, from, to, latency);
    RoomAtStart(s.row, lockedAt, from, to, p);
  }

  lemma RoomAtStart(c: Challenge, lockedAt: int, from: int, to: int, period: int)
    requires from <= to && 0 < period
    ensures Room(c, lockedAt, from, to, period) <= BUDGET * (1 + (to - from) / period)
  {
    var free := if lockedAt + period > from then lockedAt + period else from;
    Whole(to - free, to - from, period);
    Whole(0, to - from, period);
  }
}
