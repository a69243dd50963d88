/** The burst budget of a connection slot. Times and durations are nanoseconds.

    The program multiplies and divides in float64 and truncates; here the
    quotient is exact and either kept (`exact`) or rounded down to a whole
    nanosecond. The first is the ideal model, the second the stored one. */
module BurstBudget {
  import opened Wrappers

  const REFILL_WINDOW: int := 3600 * 1_000_000_000

  datatype Slot = Slot(
    count: int,
    remaining: real,
    lastAssessed: Option<int>,
    expires: int,
    sustained: int,
    budget: int)

  datatype Params = Params(sustained: int, ceiling: int, budget: int, ttl: int)

  function Max(a: real, b: real): real { if a < b then b else a }

  function Min(a: real, b: real): real { if a < b then a else b }

  function Round(exact: bool, x: real): real { if exact then x else x.Floor as real }

  predicate Bursting(sustained: int, count: int) {
    sustained > 0 && count > sustained
  }

  function Drain(sustained: int, count: int, elapsed: int): real
    requires Bursting(sustained, count)
  {
    (elapsed * (count - sustained)) as real / sustained as real
  }

  function Refill(budget: int, elapsed: int): real {
    (elapsed * budget) as real / REFILL_WINDOW as real
  }

  /** The budget after `elapsed` at a constant count. */
  function Level(exact: bool, sustained: int, budget: int, count: int, level: real, elapsed: int): real {
    if Bursting(sustained, count) then Max(0.0, level - Round(exact, Drain(sustained, count, elapsed)))
    else Min(budget as real, level + Round(exact, Refill(budget, elapsed)))
  }

  /** The time an assessment at `now` charges. */
  function Elapsed(s: Slot, now: int): int {
    if s.lastAssessed.None? || s.budget <= 0 || now <= s.lastAssessed.value then 0 else now - s.lastAssessed.value
  }

  function Assess(exact: bool, s: Slot, now: int): Slot {
    var e := Elapsed(s, now);
    if e <= 0 then s
    else s.(remaining := Level(exact, s.sustained, s.budget, s.count, s.remaining, e), lastAssessed := Some(now))
  }

  function Prepare(p: Params, s: Slot, now: int): Slot {
    var s := if s.lastAssessed.None? then s.(remaining := p.budget as real, lastAssessed := Some(now)) else s;
    s.(sustained := p.sustained, budget := p.budget, remaining := Min(s.remaining, p.budget as real))
  }

  predicate Admissible(p: Params, s: Slot) {
    s.count + 1 <= p.ceiling && (s.count + 1 <= p.sustained || s.remaining > 0.0)
  }

  function Admit(exact: bool, p: Params, s: Slot, now: int): (Slot, bool) {
    var a := Assess(exact, Prepare(p, s, now), now);
    if Admissible(p, a) then (a.(count := a.count + 1, expires := now + p.ttl), true) else (a, false)
  }

  function Release(exact: bool, s: Slot, now: int): Slot {
    var a := Assess(exact, s, now);
    if a.count > 0 then a.(count := a.count - 1) else a
  }

  function Refresh(exact: bool, p: Params, s: Slot, now: int): Slot {
    Assess(exact, s, now).(expires := now + p.ttl)
  }

  /** An admission works with the parameters it brings from its first moment: the
      budget is cut to the new one before the time since the last call is charged
      at the new rates. */
  lemma ParamsComeFirst(exact: bool, p: Params, s: Slot, now: int)
    requires s.lastAssessed.Some?
    ensures var cut := if s.remaining < p.budget as real then s.remaining else p.budget as real;
            Admit(exact, p, s, now) ==
            Admit(exact, p, Slot(s.count, cut, s.lastAssessed, s.expires, p.sustained, p.budget), now)
    ensures var a := Assess(exact, Slot(s.count, s.remaining, s.lastAssessed, s.expires, p.sustained, p.budget), now);
            s.remaining <= p.budget as real ==> Admit(exact, p, s, now).0.remaining == a.remaining
  {
  }

  /** Without a budget, or with a clock that has not moved on, nothing is charged. */
  lemma NothingCharged(exact: bool, s: Slot, now: int)
    ensures s.lastAssessed.None? || s.budget <= 0 || now <= s.lastAssessed.value ==> Assess(exact, s, now) == s
    ensures s.lastAssessed.Some? && s.budget > 0 && now > s.lastAssessed.value ==> Assess(exact, s, now).lastAssessed == Some(now)
  {
  }

  // ---- runs with fixed parameters -----------------------------------------------

  datatype Kind = Admission | Departure | Heartbeat

  datatype Call = Call(kind: Kind, at: int)

  function Next(exact: bool, p: Params, s: Slot, c: Call): Slot {
    match c.kind
    case Admission => Admit(exact, p, s, c.at).0
    case Departure => Release(exact, s, c.at)
    case Heartbeat => Refresh(exact, p, s, c.at)
  }

  function Run(exact: bool, p: Params, s: Slot, cs: seq<Call>): Slot
    decreases |cs|
  {
    if cs == [] then s else Run(exact, p, Next(exact, p, s, cs[0]), cs[1..])
  }

  /** The answers of the run's admission calls, in order. */
  function Decisions(exact: bool, p: Params, s: Slot, cs: seq<Call>): seq<bool>
    decreases |cs|
  {
    if cs == [] then []
    else (if cs[0].kind == Admission then [Admit(exact, p, s, cs[0].at).1] else [])
         + Decisions(exact, p, Next(exact, p, s, cs[0]), cs[1..])
  }

  ghost predicate Sound(p: Params) {
    0 <= p.sustained && 0 <= p.budget
  }

  /** A slot that has only ever been used with these parameters. */
  ghost predicate Inv(p: Params, s: Slot) {
    && 0 <= s.count
    && (s.lastAssessed.None? ==> s.count == 0)
    && (s.lastAssessed.Some? ==>
          s.sustained == p.sustained && s.budget == p.budget && 0.0 <= s.remaining <= p.budget as real)
  }

  function Zero(): Slot {
    Slot(0, 0.0, None, 0, 0, 0)
  }

  lemma QuotientNonNegative(a: int, b: int)
    requires 0 <= a && 0 < b
    ensures a as real / b as real >= 0.0 && (a as real / b as real).Floor >= 0
  {
  }

  lemma RoundBounds(exact: bool, x: real)
    requires x >= 0.0
    ensures 0.0 <= Round(exact, x) <= x < Round(exact, x) + 1.0
  {
  }

  /** The budget stays in range and, while the count is at most twice sustained,
      drains no faster than time passes. */
  lemma LevelBounds(exact: bool, p: Params, count: int, level: real, elapsed: int)
    requires Sound(p) && 0 <= count && 0.0 <= level <= p.budget as real && 0 <= elapsed
    ensures 0.0 <= Level(exact, p.sustained, p.budget, count, level, elapsed) <= p.budget as real
    ensures count <= 2 * p.sustained ==>
              Level(exact, p.sustained, p.budget, count, level, elapsed) >= level - elapsed as real
  {
    if Bursting(p.sustained, count) {
      DrainBounds(p.sustained, count, elapsed);
      RoundBounds(exact, Drain(p.sustained, count, elapsed));
    } else {
      RefillBounds(p.budget, elapsed);
      RoundBounds(exact, Refill(p.budget, elapsed));
    }
  }

  lemma DrainBounds(sustained: int, count: int, elapsed: int)
    requires Bursting(sustained, count) && 0 <= elapsed
    ensures 0.0 <= Drain(sustained, count, elapsed)
    ensures count <= 2 * sustained ==> Drain(sustained, count, elapsed) <= elapsed as real
  {
    var n := elapsed * (count - sustained);
    assert 0 <= n;
    QuotientNonNegative(n, sustained);
    if count <= 2 * sustained { QuotientAtMost(n, elapsed, sustained); }
  }

  lemma QuotientAtMost(n: int, e: int, d: int)
    requires 0 < d && n <= e * d
    ensures n as real / d as real <= e as real
  {
    assert n as real <= e as real * d as real;
  }

  lemma RefillBounds(budget: int, elapsed: int)
    requires 0 <= budget && 0 <= elapsed
    ensures 0.0 <= Refill(budget, elapsed)
  {
    assert 0 <= elapsed * budget;
    QuotientNonNegative(elapsed * budget, REFILL_WINDOW);
  }

  // ---- bounds over whole runs ----------------------------------------------------

  lemma AssessKeeps(exact: bool, p: Params, s: Slot, now: int)
    requires Sound(p) && Inv(p, s)
    ensures var a := Assess(exact, s, now);
            && Inv(p, a) && a.count == s.count && (a.lastAssessed.Some? <==> s.lastAssessed.Some?)
            && (s.lastAssessed.Some? ==>
                  a.lastAssessed.value == s.lastAssessed.value + Elapsed(s, now)
                  && (s.count <= 2 * p.sustained ==> a.remaining >= s.remaining - Elapsed(s, now) as real))
  {
    if Elapsed(s, now) > 0 { LevelBounds(exact, p, s.count, s.remaining, Elapsed(s, now)); }
  }

  lemma StepKeeps(exact: bool, p: Params, s: Slot, c: Call)
    requires Sound(p) && Inv(p, s)
    ensures var t := Next(exact, p, s, c);
            && Inv(p, t) && t.count <= (if s.count < p.ceiling then p.ceiling else s.count)
            && (s.lastAssessed.Some? ==>
                  && t.lastAssessed == Some(s.lastAssessed.value + Elapsed(s, c.at))
                  && (s.count <= 2 * p.sustained ==> t.remaining >= s.remaining - Elapsed(s, c.at) as real))
  {
    AssessKeeps(exact, p, s, c.at);
    AssessKeeps(exact, p, Prepare(p, s, c.at), c.at);
  }

  /** The latest time the slot has seen. */
  function Latest(from: int, cs: seq<Call>): int
    decreases |cs|
  {
    if cs == [] then from else Latest(if cs[0].at > from then cs[0].at else from, cs[1..])
  }

  /** All the time charged in a run, call by call. */
  function Charged(exact: bool, p: Params, s: Slot, cs: seq<Call>): int
    decreases |cs|
  {
    if cs == [] then 0 else Elapsed(s, cs[0].at) + Charged(exact, p, Next(exact, p, s, cs[0]), cs[1..])
  }

  /** No instant is charged twice, even if the clock steps back: the charged
      time adds up to the span from the first assessment to the latest call. */
  lemma {:induction false} ChargedOnce(exact: bool, p: Params, s: Slot, cs: seq<Call>)
    requires Sound(p) && p.budget > 0 && Inv(p, s) && s.lastAssessed.Some?
    ensures Charged(exact, p, s, cs) == Latest(s.lastAssessed.value, cs) - s.lastAssessed.value
    ensures Run(exact, p, s, cs).lastAssessed == Some(Latest(s.lastAssessed.value, cs))
    decreases |cs|
  {
    if cs != [] {
      StepKeeps(exact, p, s, cs[0]);
      ChargedOnce(exact, p, Next(exact, p, s, cs[0]), cs[1..]);
    }
  }

  lemma {:induction false} LatestGrows(from: int, cs: seq<Call>)
    ensures from <= Latest(from, cs)
    decreases |cs|
  {
    if cs != [] { LatestGrows(if cs[0].at > from then cs[0].at else from, cs[1..]); }
  }

  /** The budget stays within its bounds and falls no faster than time passes. */
  lemma {:induction false} BudgetBounds(exact: bool, p: Params, s: Slot, cs: seq<Call>)
    requires Sound(p) && Inv(p, s)
    ensures var t := Run(exact, p, s, cs);
            && Inv(p, t) && (s.lastAssessed.Some? ==> t.lastAssessed.Some?)
            && (s.lastAssessed.Some? && p.ceiling <= 2 * p.sustained && s.count <= 2 * p.sustained ==>
                  t.remaining >= s.remaining - (Latest(s.lastAssessed.value, cs) - s.lastAssessed.value) as real)
    decreases |cs|
  {
    if cs != [] {
      StepKeeps(exact, p, s, cs[0]);
      BudgetBounds(exact, p, Next(exact, p, s, cs[0]), cs[1..]);
      if s.lastAssessed.Some? { LatestGrows(s.lastAssessed.value, cs); }
    }
  }

  lemma {:induction false} LatestAtMost(from: int, cs: seq<Call>, end: int)
    requires from <= end && forall c | c in cs :: c.at <= end
    ensures from <= Latest(from, cs) <= end
    decreases |cs|
  {
    if cs != [] { LatestAtMost(if cs[0].at > from then cs[0].at else from, cs[1..], end); }
  }

  lemma {:induction false} CountStays(exact: bool, p: Params, s: Slot, cs: seq<Call>)
    requires Sound(p) && Inv(p, s) && p.ceiling <= 2 * p.sustained && s.count <= 2 * p.sustained
    ensures Run(exact, p, s, cs).count <= 2 * p.sustained
    decreases |cs|
  {
    if cs != [] {
      StepKeeps(exact, p, s, cs[0]);
      CountStays(exact, p, Next(exact, p, s, cs[0]), cs[1..]);
    }
  }

  /** A full budget lasts at least its own length of wall time: until then only
      the ceiling refuses a connection, whatever calls came before. */
  lemma FullBudgetLasts(exact: bool, p: Params, s: Slot, cs: seq<Call>, now: int)
    requires Sound(p) && Inv(p, s) && s.lastAssessed.Some? && s.remaining == p.budget as real
    requires p.ceiling <= 2 * p.sustained && s.count <= 2 * p.sustained
    requires s.lastAssessed.value <= now < s.lastAssessed.value + p.budget
    requires forall c | c in cs :: c.at <= now
    ensures var t := Run(exact, p, s, cs);
            Admit(exact, p, t, now).1 <==> t.count + 1 <= p.ceiling
  {
    var t := Run(exact, p, s, cs);
    BudgetBounds(exact, p, s, cs);
    ChargedOnce(exact, p, s, cs);
    LatestAtMost(s.lastAssessed.value, cs, now);
    CountStays(exact, p, s, cs);
    assert Prepare(p, t, now) == t;
    AssessKeeps(exact, p, t, now);
  }

  /** Every call leaves the count as it was: heartbeats, refused admissions, and
      departures from an empty slot. */
  predicate Steady(exact: bool, p: Params, s: Slot, cs: seq<Call>)
    decreases |cs|
  {
    cs == [] || (Next(exact, p, s, cs[0]).count == s.count && Steady(exact, p, Next(exact, p, s, cs[0]), cs[1..]))
  }

  /** Such a call assesses the slot and does nothing else to its budget. */
  lemma SteadyAssesses(exact: bool, p: Params, s: Slot, c: Call)
    requires Sound(p) && Inv(p, s) && s.lastAssessed.Some? && Next(exact, p, s, c).count == s.count
    ensures var t, a := Next(exact, p, s, c), Assess(exact, s, c.at);
            Inv(p, t) && t.lastAssessed == a.lastAssessed && t.remaining == a.remaining
  {
    StepKeeps(exact, p, s, c);
    assert Prepare(p, s, c.at) == s;
  }

  lemma DrainAtTwice(sustained: int, e: int)
    requires 0 < sustained
    ensures Drain(sustained, 2 * sustained, e) == e as real
  {
    assert (e * sustained) as real == e as real * sustained as real;
  }

  lemma HeldStep(exact: bool, p: Params, s: Slot, c: Call)
    requires Sound(p) && p.sustained > 0 && p.budget > 0 && Inv(p, s) && s.lastAssessed.Some? && s.count == 2 * p.sustained
    requires Next(exact, p, s, c).count == s.count
    ensures var t := Next(exact, p, s, c); var e := Elapsed(s, c.at);
            && Inv(p, t) && t.lastAssessed == Some(s.lastAssessed.value + e)
            && t.remaining == Max(0.0, s.remaining - e as real)
  {
    DrainAtTwice(p.sustained, Elapsed(s, c.at));
    SteadyAssesses(exact, p, s, c);
    AssessKeeps(exact, p, s, c.at);
  }

  /** Held at twice sustained the budget drains exactly as fast as time passes. */
  lemma {:induction false} HeldAtTwice(exact: bool, p: Params, s: Slot, cs: seq<Call>)
    requires Sound(p) && p.sustained > 0 && p.budget > 0 && Inv(p, s) && s.lastAssessed.Some? && s.count == 2 * p.sustained
    requires Steady(exact, p, s, cs)
    ensures var t := Run(exact, p, s, cs);
            && t.count == s.count
            && t.remaining == Max(0.0, s.remaining - (Latest(s.lastAssessed.value, cs) - s.lastAssessed.value) as real)
    decreases |cs|
  {
    if cs != [] {
      HeldStep(exact, p, s, cs[0]);
      var n := Next(exact, p, s, cs[0]);
      assert Latest(s.lastAssessed.value, cs) == Latest(n.lastAssessed.value, cs[1..]);
      LatestGrows(n.lastAssessed.value, cs[1..]);
      HeldAtTwice(exact, p, n, cs[1..]);
    }
  }

  // ---- the exact model follows a continuous budget ---------------------------------

  /** The ideal budget at time t: what an assessment then would find. */
  function View(p: Params, s: Slot, t: int): real {
    if s.lastAssessed.None? then p.budget as real else Assess(true, s, t).remaining
  }

  predicate InOrder(from: int, cs: seq<Call>)
    decreases |cs|
  {
    cs == [] || (from <= cs[0].at && InOrder(cs[0].at, cs[1..]))
  }

  predicate NotAfter(s: Slot, t: int) {
    s.lastAssessed.Some? ==> s.lastAssessed.value <= t
  }

  lemma Distribute(a: int, b: int, n: int, d: int)
    requires d > 0
    ensures ((a + b) * n) as real / d as real == (a * n) as real / d as real + (b * n) as real / d as real
  {
    assert (a + b) * n == a * n + b * n;
  }

  /** Assessing on the way changes nothing. */
  lemma LevelSplits(p: Params, count: int, level: real, d1: int, d2: int)
    requires Sound(p) && 0 <= count && 0.0 <= level <= p.budget as real && 0 <= d1 && 0 <= d2
    ensures Level(true, p.sustained, p.budget, count, Level(true, p.sustained, p.budget, count, level, d1), d2)
            == Level(true, p.sustained, p.budget, count, level, d1 + d2)
  {
    if Bursting(p.sustained, count) {
      DrainAdds(p, count, d1, d2);
      var a, b := Drain(p.sustained, count, d1), Drain(p.sustained, count, d2);
      assert Max(0.0, Max(0.0, level - a) - b) == Max(0.0, level - (a + b));
    } else {
      RefillAdds(p, d1, d2);
      var a, b, cap := Refill(p.budget, d1), Refill(p.budget, d2), p.budget as real;
      assert Min(cap, Min(cap, level + a) + b) == Min(cap, level + (a + b));
    }
  }

  lemma DrainAdds(p: Params, count: int, d1: int, d2: int)
    requires Bursting(p.sustained, count) && 0 <= d1 && 0 <= d2
    ensures var a, b := Drain(p.sustained, count, d1), Drain(p.sustained, count, d2);
            0.0 <= a && 0.0 <= b && Drain(p.sustained, count, d1 + d2) == a + b
  {
    Distribute(d1, d2, count - p.sustained, p.sustained);
    assert 0 <= d1 * (count - p.sustained) && 0 <= d2 * (count - p.sustained);
    QuotientNonNegative(d1 * (count - p.sustained), p.sustained);
    QuotientNonNegative(d2 * (count - p.sustained), p.sustained);
  }

  lemma RefillAdds(p: Params, d1: int, d2: int)
    requires Sound(p) && 0 <= d1 && 0 <= d2
    ensures var a, b := Refill(p.budget, d1), Refill(p.budget, d2);
            0.0 <= a && 0.0 <= b && Refill(p.budget, d1 + d2) == a + b
  {
    Distribute(d1, d2, p.budget, REFILL_WINDOW);
    assert 0 <= d1 * p.budget && 0 <= d2 * p.budget;
    QuotientNonNegative(d1 * p.budget, REFILL_WINDOW);
    QuotientNonNegative(d2 * p.budget, REFILL_WINDOW);
  }

  lemma ViewFlows(p: Params, s: Slot, t: int, u: int)
    requires Sound(p) && Inv(p, s) && NotAfter(s, t) && t <= u
    ensures 0.0 <= View(p, s, t) <= p.budget as real
    ensures View(p, s, u) == Level(true, p.sustained, p.budget, s.count, View(p, s, t), u - t)
  {
    if s.lastAssessed.Some? {
      var last := s.lastAssessed.value;
      ViewIsLevel(p, s, t);
      ViewIsLevel(p, s, u);
      LevelBounds(true, p, s.count, s.remaining, t - last);
      LevelSplits(p, s.count, s.remaining, t - last, u - t);
      assert t - last + (u - t) == u - last;
    } else {
      QuotientNonNegative((u - t) * p.budget, REFILL_WINDOW);
    }
  }

  lemma ViewIsLevel(p: Params, s: Slot, t: int)
    requires Sound(p) && Inv(p, s) && s.lastAssessed.Some? && s.lastAssessed.value <= t
    ensures View(p, s, t) == Level(true, p.sustained, p.budget, s.count, s.remaining, t - s.lastAssessed.value)
  {
    LevelBounds(true, p, s.count, s.remaining, t - s.lastAssessed.value);
    LevelZero(p, s);
  }

  lemma LevelZero(p: Params, s: Slot)
    requires Sound(p) && Inv(p, s) && s.lastAssessed.Some?
    ensures forall exact :: Level(exact, p.sustained, p.budget, s.count, s.remaining, 0) == s.remaining
  {
  }

  /** Same count, same ideal budget from t on. */
  ghost predicate Alike(p: Params, a: Slot, b: Slot, t: int) {
    && Inv(p, a) && Inv(p, b) && NotAfter(a, t) && NotAfter(b, t)
    && a.count == b.count && View(p, a, t) == View(p, b, t)
  }

  /** Only the ideal budget at the time of the call matters to a call. */
  lemma StepView(p: Params, s: Slot, c: Call)
    requires Sound(p) && Inv(p, s) && NotAfter(s, c.at)
    ensures var t := Next(true, p, s, c);
            && Inv(p, t) && NotAfter(t, c.at) && View(p, t, c.at) == View(p, s, c.at)
            && t.count == (match c.kind
                           case Admission => if Admit(true, p, s, c.at).1 then s.count + 1 else s.count
                           case Departure => if s.count > 0 then s.count - 1 else s.count
                           case Heartbeat => s.count)
            && (Admit(true, p, s, c.at).1 <==>
                  s.count + 1 <= p.ceiling && (s.count + 1 <= p.sustained || View(p, s, c.at) > 0.0))
  {
    StepKeeps(true, p, s, c);
    if s.lastAssessed.None? { assert Elapsed(Prepare(p, s, c.at), c.at) == 0; }
    else { assert Prepare(p, s, c.at) == s; }
  }

  lemma {:induction false} AlikeRuns(p: Params, a: Slot, b: Slot, t: int, cs: seq<Call>)
    requires Sound(p) && Alike(p, a, b, t) && InOrder(t, cs)
    ensures Decisions(true, p, a, cs) == Decisions(true, p, b, cs)
    ensures Alike(p, Run(true, p, a, cs), Run(true, p, b, cs), if cs == [] then t else cs[|cs| - 1].at)
    decreases |cs|
  {
    if cs != [] {
      var c := cs[0];
      ViewFlows(p, a, t, c.at);
      ViewFlows(p, b, t, c.at);
      StepView(p, a, c);
      StepView(p, b, c);
      AlikeRuns(p, Next(true, p, a, c), Next(true, p, b, c), c.at, cs[1..]);
    }
  }

  lemma {:induction false} RunAppend(exact: bool, p: Params, s: Slot, cs: seq<Call>, ds: seq<Call>)
    ensures Run(exact, p, s, cs + ds) == Run(exact, p, Run(exact, p, s, cs), ds)
    ensures Decisions(exact, p, s, cs + ds) == Decisions(exact, p, s, cs) + Decisions(exact, p, Run(exact, p, s, cs), ds)
    decreases |cs|
  {
    if cs == [] {
      assert cs + ds == ds;
    } else {
      assert (cs + ds)[1..] == cs[1..] + ds;
      RunAppend(exact, p, Next(exact, p, s, cs[0]), cs[1..], ds);
    }
  }

  /** In exact arithmetic, a heartbeat or a refused admission inserted anywhere
      in an in-order run changes no later decision and not the final budget. */
  lemma InsertionChangesNothing(p: Params, s: Slot, before: seq<Call>, extra: Call, after: seq<Call>, end: int)
    requires Sound(p) && Inv(p, s)
    requires var t := Run(true, p, s, before);
             && NotAfter(t, extra.at)
             && (extra.kind == Heartbeat || (extra.kind == Admission && !Admit(true, p, t, extra.at).1))
    requires InOrder(extra.at, after) && forall c | c in after :: c.at <= end
    requires extra.at <= end
    ensures Decisions(true, p, Run(true, p, s, before + [extra]), after) == Decisions(true, p, Run(true, p, s, before), after)
    ensures View(p, Run(true, p, s, before + [extra] + after), end) == View(p, Run(true, p, s, before + after), end)
  {
    var t := Run(true, p, s, before);
    BudgetBounds(true, p, s, before);
    RunAppend(true, p, s, before, [extra]);
    RunAppend(true, p, s, before + [extra], after);
    RunAppend(true, p, s, before, after);
    StepView(p, t, extra);
    var u := Next(true, p, t, extra);
    assert Run(true, p, t, [extra]) == u;
    AlikeRuns(p, t, u, extra.at, after);
    var last := if after == [] then extra.at else after[|after| - 1].at;
    ViewFlows(p, Run(true, p, t, after), last, end);
    ViewFlows(p, Run(true, p, u, after), last, end);
  }

  // ---- what rounding down costs -----------------------------------------------------

  /** The stored budget that an assessment at time t finds. */
  function Stored(p: Params, s: Slot, t: int): real {
    if s.lastAssessed.None? then p.budget as real else Assess(false, s, t).remaining
  }

  /** A run with calls inserted into it. */
  datatype Marked = Base(call: Call) | Extra(call: Call)

  function AllCalls(ms: seq<Marked>): seq<Call> {
    if ms == [] then [] else [ms[0].call] + AllCalls(ms[1..])
  }

  function BaseCalls(ms: seq<Marked>): seq<Call> {
    if ms == [] then [] else (if ms[0].Base? then [ms[0].call] else []) + BaseCalls(ms[1..])
  }

  function Extras(ms: seq<Marked>): nat {
    if ms == [] then 0 else (if ms[0].Extra? then 1 else 0) + Extras(ms[1..])
  }

  ghost predicate Whole(x: real) { x == x.Floor as real }

  /** x is off y by at most n: on the generous side while draining, on the strict
      side while refilling. */
  ghost predicate Near(p: Params, count: int, x: real, y: real, n: int) {
    if Bursting(p.sustained, count) then y <= x <= y + n as real else x <= y <= x + n as real
  }

  ghost predicate Nearer(p: Params, count: int, x: real, y: real, n: int) {
    if Bursting(p.sustained, count) then y <= x < y + n as real else x <= y < x + n as real
  }

  ghost predicate InRange(p: Params, x: real) { 0.0 <= x <= p.budget as real }

  lemma WholeShift(x: real, n: int)
    requires Whole(x)
    ensures Whole(x + n as real)
  {
    assert x + n as real == (x.Floor + n) as real;
  }

  lemma DrainDrift(stored: real, ideal: real, d: real, n: int)
    requires 0.0 <= d && 0 <= n && Whole(stored) && ideal <= stored <= ideal + n as real
    ensures var a, b := Max(0.0, stored - d.Floor as real), Max(0.0, ideal - d);
            Whole(a) && b <= a < b + (n + 1) as real
  {
    WholeShift(stored, -d.Floor);
    assert stored - d.Floor as real == stored + (-d.Floor) as real;
  }

  lemma RefillDrift(stored: real, ideal: real, d: real, cap: int, n: int)
    requires 0.0 <= d && 0 <= n && Whole(stored) && stored <= ideal <= stored + n as real
    ensures var a, b := Min(cap as real, stored + d.Floor as real), Min(cap as real, ideal + d);
            Whole(a) && a <= b < a + (n + 1) as real
  {
    WholeShift(stored, d.Floor);
  }

  /** One rounding adds less than a nanosecond to the distance. */
  lemma DriftStep(p: Params, count: int, stored: real, ideal: real, n: int, e: int)
    requires Sound(p) && 0 <= count && 0 <= e && 0 <= n && InRange(p, stored) && InRange(p, ideal)
    requires Whole(stored) && Near(p, count, stored, ideal, n)
    ensures var x, y := Level(false, p.sustained, p.budget, count, stored, e), Level(true, p.sustained, p.budget, count, ideal, e);
            Whole(x) && InRange(p, x) && InRange(p, y) && Nearer(p, count, x, y, n + 1)
  {
    LevelBounds(false, p, count, stored, e);
    LevelBounds(true, p, count, ideal, e);
    if Bursting(p.sustained, count) {
      DrainAdds(p, count, e, 0);
      DrainDrift(stored, ideal, Drain(p.sustained, count, e), n);
    } else {
      RefillAdds(p, e, 0);
      RefillDrift(stored, ideal, Refill(p.budget, e), p.budget, n);
    }
  }

  lemma WholeLess(x: int, y: int, n: int)
    ensures x as real - y as real < n as real ==> x as real - y as real <= (n - 1) as real
    ensures x as real - y as real > -1.0 ==> x as real >= y as real
  {
    var z := x - y;
    assert x as real - y as real == z as real;
    if z > n - 1 { assert z as real >= n as real; }
    if z < 0 { assert z as real <= -1.0; }
  }

  /** Two whole levels within n+1 and within one of the same ideal are within n of each other. */
  lemma WholeNear(p: Params, count: int, a: real, b: real, ideal: real, n: int)
    requires Whole(a) && Whole(b) && 0 <= n
    requires Nearer(p, count, a, ideal, n + 1) && Nearer(p, count, b, ideal, 1)
    ensures Near(p, count, a, b, n)
  {
    WholeLess(a.Floor, b.Floor, n + 1);
    WholeLess(b.Floor, a.Floor, n + 1);
  }

  /** What is left at time t of the base run's stored level, in exact arithmetic. */
  function Ideal(p: Params, b: Slot, t: int): real
    requires b.lastAssessed.Some?
  {
    Level(true, p.sustained, p.budget, b.count, b.remaining, t - b.lastAssessed.value)
  }

  /** Slot a of the run with insertions against slot b of the base run, n
      insertions in. */
  ghost predicate Gap(p: Params, a: Slot, b: Slot, n: int) {
    && Inv(p, a) && Inv(p, b) && a.lastAssessed.Some? && b.lastAssessed.Some? && a.count == b.count
    && b.lastAssessed.value <= a.lastAssessed.value && Whole(a.remaining) && Whole(b.remaining) && 0 <= n
    && InRange(p, Ideal(p, b, a.lastAssessed.value))
    && Near(p, a.count, a.remaining, Ideal(p, b, a.lastAssessed.value), n)
    && (b.lastAssessed.value < a.lastAssessed.value ==> Nearer(p, a.count, a.remaining, Ideal(p, b, a.lastAssessed.value), n))
  }

  lemma SteadyStep(p: Params, s: Slot, c: Call)
    requires Sound(p) && p.budget > 0 && Inv(p, s) && s.lastAssessed.Some? && s.lastAssessed.value <= c.at
    requires Next(false, p, s, c).count == s.count
    ensures var t := Next(false, p, s, c); var a := Assess(false, s, c.at);
            Inv(p, t) && t.lastAssessed == Some(c.at) == a.lastAssessed && t.remaining == a.remaining
            && a.remaining == Level(false, p.sustained, p.budget, s.count, s.remaining, c.at - s.lastAssessed.value)
  {
    SteadyAssesses(false, p, s, c);
    LevelZero(p, s);
  }

  /** Assessing the slot with insertions at t, against the ideal of the base slot. */
  lemma GapFlows(p: Params, a: Slot, b: Slot, n: int, t: int)
    requires Sound(p) && p.budget > 0 && Gap(p, a, b, n) && a.lastAssessed.value <= t
    ensures var x := Level(false, p.sustained, p.budget, a.count, a.remaining, t - a.lastAssessed.value);
            && Whole(x) && InRange(p, x) && InRange(p, Ideal(p, b, t))
            && (b.lastAssessed.value < t ==> Nearer(p, a.count, x, Ideal(p, b, t), n + 1))
            && (b.lastAssessed.value == t ==> Near(p, a.count, x, Ideal(p, b, t), n))
  {
    var e, ideal := t - a.lastAssessed.value, Ideal(p, b, a.lastAssessed.value);
    LevelSplits(p, b.count, b.remaining, a.lastAssessed.value - b.lastAssessed.value, e);
    assert Ideal(p, b, t) == Level(true, p.sustained, p.budget, b.count, ideal, e);
    DriftStep(p, a.count, a.remaining, ideal, n, e);
    if e == 0 { LevelZero(p, a); }
  }

  lemma GapExtra(p: Params, a: Slot, b: Slot, n: int, c: Call)
    requires Sound(p) && p.budget > 0 && Gap(p, a, b, n) && a.lastAssessed.value <= c.at
    requires Next(false, p, a, c).count == a.count
    ensures Gap(p, Next(false, p, a, c), b, n + 1)
  {
    SteadyStep(p, a, c);
    GapFlows(p, a, b, n, c.at);
  }

  /** Assessed at the same time, the two stored levels are at most n apart. */
  lemma GapMeets(p: Params, a: Slot, b: Slot, n: int, t: int)
    requires Sound(p) && p.budget > 0 && Gap(p, a, b, n) && a.lastAssessed.value <= t
    ensures var x := Level(false, p.sustained, p.budget, a.count, a.remaining, t - a.lastAssessed.value);
            var y := Level(false, p.sustained, p.budget, b.count, b.remaining, t - b.lastAssessed.value);
            Whole(x) && Whole(y) && Near(p, a.count, x, y, n)
  {
    GapFlows(p, a, b, n, t);
    var x := Level(false, p.sustained, p.budget, a.count, a.remaining, t - a.lastAssessed.value);
    var y := Level(false, p.sustained, p.budget, b.count, b.remaining, t - b.lastAssessed.value);
    LevelZero(p, b);
    if b.lastAssessed.value < t {
      DriftStep(p, b.count, b.remaining, b.remaining, 0, t - b.lastAssessed.value);
      WholeNear(p, a.count, x, y, Ideal(p, b, t), n);
    }
  }

  lemma GapBase(p: Params, a: Slot, b: Slot, n: int, c: Call)
    requires Sound(p) && p.budget > 0 && Gap(p, a, b, n) && a.lastAssessed.value <= c.at
    requires Next(false, p, a, c).count == a.count && Next(false, p, b, c).count == b.count
    ensures Gap(p, Next(false, p, a, c), Next(false, p, b, c), n)
  {
    SteadyStep(p, a, c);
    SteadyStep(p, b, c);
    GapMeets(p, a, b, n, c.at);
    LevelZero(p, Next(false, p, b, c));
  }

  /** The first call of a steady run, and what is left of the run. */
  lemma FirstCall(p: Params, s: Slot, c: Call, rest: seq<Call>)
    requires Steady(false, p, s, [c] + rest)
    ensures Next(false, p, s, c).count == s.count && Steady(false, p, Next(false, p, s, c), rest)
    ensures Run(false, p, s, [c] + rest) == Run(false, p, Next(false, p, s, c), rest)
  {
    assert ([c] + rest)[1..] == rest;
  }

  lemma FirstInOrder(from: int, c: Call, rest: seq<Call>)
    requires InOrder(from, [c] + rest)
    ensures from <= c.at && InOrder(c.at, rest)
  {
    assert ([c] + rest)[1..] == rest;
  }

  lemma {:induction false} GapRun(p: Params, a: Slot, b: Slot, n: int, ms: seq<Marked>)
    requires Sound(p) && p.budget > 0 && Gap(p, a, b, n) && InOrder(a.lastAssessed.value, AllCalls(ms))
    requires Steady(false, p, a, AllCalls(ms)) && Steady(false, p, b, BaseCalls(ms))
    ensures Gap(p, Run(false, p, a, AllCalls(ms)), Run(false, p, b, BaseCalls(ms)), n + Extras(ms))
    ensures Run(false, p, a, AllCalls(ms)).lastAssessed == Some(LastAt(a.lastAssessed.value, ms))
    ensures Run(false, p, a, AllCalls(ms)).count == a.count
    decreases |ms|
  {
    if ms != [] {
      var c, rest := ms[0].call, ms[1..];
      var a' := Next(false, p, a, c);
      FirstCall(p, a, c, AllCalls(rest));
      FirstInOrder(a.lastAssessed.value, c, AllCalls(rest));
      SteadyStep(p, a, c);
      if ms[0].Extra? {
        GapExtra(p, a, b, n, c);
        assert BaseCalls(ms) == BaseCalls(rest);
        GapRun(p, a', b, n + 1, rest);
      } else {
        FirstCall(p, b, c, BaseCalls(rest));
        GapBase(p, a, b, n, c);
        GapRun(p, a', Next(false, p, b, c), n, rest);
      }
    }
  }

  /** The time of the last call. */
  function LastAt(from: int, ms: seq<Marked>): int
    decreases |ms|
  {
    if ms == [] then from else LastAt(ms[0].call.at, ms[1..])
  }

  /** An unused slot, or one that is full and not bursting, stays full. */
  ghost predicate Full(p: Params, s: Slot) {
    Inv(p, s) && s.count == 0 && (s.lastAssessed.Some? ==> s.remaining == p.budget as real)
  }

  lemma {:induction false} FullStays(p: Params, s: Slot, cs: seq<Call>)
    requires Sound(p) && Full(p, s) && Steady(false, p, s, cs)
    ensures Full(p, Run(false, p, s, cs))
    decreases |cs|
  {
    if cs != [] {
      StepKeeps(false, p, s, cs[0]);
      FullAssess(p, s, cs[0].at);
      FullAssess(p, Prepare(p, s, cs[0].at), cs[0].at);
      FullStays(p, Next(false, p, s, cs[0]), cs[1..]);
    }
  }

  lemma FullAssess(p: Params, s: Slot, t: int)
    requires Sound(p) && Full(p, s)
    ensures Full(p, Assess(false, s, t)) && Stored(p, s, t) == p.budget as real
  {
    if Elapsed(s, t) > 0 { RefillAdds(p, Elapsed(s, t), 0); }
  }

  lemma {:induction false} EmptyStays(p: Params, s: Slot, cs: seq<Call>, t: int)
    requires Sound(p) && p.budget == 0 && Inv(p, s)
    ensures Stored(p, Run(false, p, s, cs), t) == 0.0
    decreases |cs|
  {
    if cs == [] {
      AssessKeeps(false, p, s, t);
    } else {
      StepKeeps(false, p, s, cs[0]);
      EmptyStays(p, Next(false, p, s, cs[0]), cs[1..], t);
    }
  }

  /** While the count stays the same, k calls inserted anywhere into a run move
      the stored budget, at any time after, by at most k nanoseconds: up while
      draining, down while refilling. */
  lemma TruncationCost(p: Params, s: Slot, ms: seq<Marked>, from: int, end: int)
    requires Sound(p) && Inv(p, s) && (s.lastAssessed.Some? ==> Whole(s.remaining) && s.lastAssessed.value <= from)
    requires InOrder(from, AllCalls(ms)) && LastAt(from, ms) <= end
    requires Steady(false, p, s, AllCalls(ms)) && Steady(false, p, s, BaseCalls(ms))
    ensures var k := Extras(ms) as real;
            var once := Stored(p, Run(false, p, s, BaseCalls(ms)), end);
            var often := Stored(p, Run(false, p, s, AllCalls(ms)), end);
            if Bursting(p.sustained, s.count) then once <= often <= once + k else once - k <= often <= once
  {
    var a, b := Run(false, p, s, AllCalls(ms)), Run(false, p, s, BaseCalls(ms));
    if p.budget == 0 {
      EmptyStays(p, s, AllCalls(ms), end);
      EmptyStays(p, s, BaseCalls(ms), end);
    } else if s.lastAssessed.None? {
      FullStays(p, s, AllCalls(ms));
      FullStays(p, s, BaseCalls(ms));
      FullAssess(p, a, end);
      FullAssess(p, b, end);
    } else {
      LevelZero(p, s);
      InOrderFrom(s.lastAssessed.value, from, AllCalls(ms));
      GapRun(p, s, s, 0, ms);
      GapMeets(p, a, b, Extras(ms), end);
      AssessIsLevel(false, p, a, end);
      AssessIsLevel(false, p, b, end);
    }
  }

  lemma InOrderFrom(from: int, later: int, cs: seq<Call>)
    requires from <= later && InOrder(later, cs)
    ensures InOrder(from, cs)
  {
  }

  lemma AssessIsLevel(exact: bool, p: Params, s: Slot, now: int)
    requires Sound(p) && p.budget > 0 && Inv(p, s) && s.lastAssessed.Some? && s.lastAssessed.value <= now
    ensures Assess(exact, s, now).remaining ==
            Level(exact, p.sustained, p.budget, s.count, s.remaining, now - s.lastAssessed.value)
  {
    LevelZero(p, s);
  }

  // ---- the rates ----------------------------------------------------------------------

  /** In exact arithmetic a steady run is one long assessment. */
  lemma {:induction false} SteadyIsLevel(p: Params, s: Slot, cs: seq<Call>)
    requires Sound(p) && p.budget > 0 && Inv(p, s) && s.lastAssessed.Some? && Steady(true, p, s, cs)
    ensures var t, last := Run(true, p, s, cs), s.lastAssessed.value;
            && t.count == s.count && t.lastAssessed == Some(Latest(last, cs)) && last <= Latest(last, cs)
            && t.remaining == Level(true, p.sustained, p.budget, s.count, s.remaining, Latest(last, cs) - last)
    decreases |cs|
  {
    var last := s.lastAssessed.value;
    LatestGrows(last, cs);
    LevelZero(p, s);
    if cs != [] {
      var e, n := Elapsed(s, cs[0].at), Next(true, p, s, cs[0]);
      SteadyAssesses(true, p, s, cs[0]);
      AssessKeeps(true, p, s, cs[0].at);
      SteadyIsLevel(p, n, cs[1..]);
      LevelSplits(p, s.count, s.remaining, e, Latest(last, cs) - last - e);
    }
  }

  lemma CrossMultiply(n: int, d: int, x: real)
    requires 0 < d && x == n as real / d as real
    ensures x * d as real == n as real
  {
  }

  lemma ScaleOrder(x: real, y: real, d: real)
    requires 0.0 < d
    ensures x >= y <==> x * d >= y * d
    ensures (x - y) * d == x * d - y * d
  {
  }

  /** From start to rest, at so much per limit, all that was owed is paid, or
      nothing is left. */
  ghost predicate PaidOff(start: real, rest: real, limit: real, owed: real) {
    if start * limit >= owed then (start - rest) * limit == owed else rest == 0.0
  }

  /** From start to rest, an hour's worth of what was earned is credited, up to the cap. */
  ghost predicate PaidIn(start: real, rest: real, cap: real, earned: real) {
    if (cap - start) * 3_600_000_000_000.0 >= earned then (rest - start) * 3_600_000_000_000.0 == earned else rest == cap
  }

  /** Held steady above the sustained limit, a budget of time pays for each
      elapsed instant the share of connections over the limit, until it is spent. */
  lemma BurstRate(p: Params, s: Slot, cs: seq<Call>)
    requires 0 < p.sustained < s.count && 0 < p.budget && Inv(p, s) && s.lastAssessed.Some? && Steady(true, p, s, cs)
    ensures var e := Latest(s.lastAssessed.value, cs) - s.lastAssessed.value;
            PaidOff(s.remaining, Run(true, p, s, cs).remaining, p.sustained as real, (e * (s.count - p.sustained)) as real)
  {
    SteadyIsLevel(p, s, cs);
    LevelDrains(p, s.count, s.remaining, Latest(s.lastAssessed.value, cs) - s.lastAssessed.value);
  }

  lemma LevelDrains(p: Params, count: int, level: real, e: int)
    requires 0 < p.sustained < count && 0.0 <= level
    ensures var rest, owed := Level(true, p.sustained, p.budget, count, level, e), (e * (count - p.sustained)) as real;
            PaidOff(level, rest, p.sustained as real, owed)
  {
    var n := e * (count - p.sustained);
    var d := Drain(p.sustained, count, e);
    CrossMultiply(n, p.sustained, d);
    DrainLaw(level, d, p.sustained as real, n as real, Max(0.0, level - d));
  }

  lemma LevelRefills(p: Params, count: int, level: real, e: int)
    requires !Bursting(p.sustained, count)
    ensures var rest, earned := Level(true, p.sustained, p.budget, count, level, e), (e * p.budget) as real;
            PaidIn(level, rest, p.budget as real, earned)
  {
    var n := e * p.budget;
    var d := Refill(p.budget, e);
    CrossMultiply(n, REFILL_WINDOW, d);
    RefillLaw(level, d, n as real, p.budget as real, Min(p.budget as real, level + d));
  }

  lemma DrainLaw(start: real, d: real, limit: real, owed: real, rest: real)
    requires 0.0 < limit && d * limit == owed && rest == Max(0.0, start - d) && 0.0 <= start
    ensures PaidOff(start, rest, limit, owed)
  {
    ScaleOrder(start, d, limit);
  }

  lemma RefillLaw(start: real, d: real, earned: real, cap: real, rest: real)
    requires d * 3_600_000_000_000.0 == earned && rest == Min(cap, start + d)
    ensures PaidIn(start, rest, cap, earned)
  {
    ScaleOrder(cap - start, d, 3_600_000_000_000.0);
  }

  /** Held steady at or below the limit, an empty budget is full after an hour,
      and in proportion before that. */
  lemma RefillRate(p: Params, s: Slot, cs: seq<Call>)
    requires Sound(p) && 0 < p.budget && Inv(p, s) && s.lastAssessed.Some? && Steady(true, p, s, cs)
    requires p.sustained == 0 || s.count <= p.sustained
    ensures var e := Latest(s.lastAssessed.value, cs) - s.lastAssessed.value;
            PaidIn(s.remaining, Run(true, p, s, cs).remaining, p.budget as real, (e * p.budget) as real)
  {
    SteadyIsLevel(p, s, cs);
    LevelRefills(p, s.count, s.remaining, Latest(s.lastAssessed.value, cs) - s.lastAssessed.value);
  }

  lemma EmptyIsFullAfterAnHour(p: Params, s: Slot, cs: seq<Call>)
    requires Sound(p) && 0 < p.budget && Inv(p, s) && s.lastAssessed.Some? && Steady(true, p, s, cs)
    requires (p.sustained == 0 || s.count <= p.sustained) && s.remaining == 0.0
    ensures var t, e := Run(true, p, s, cs), Latest(s.lastAssessed.value, cs) - s.lastAssessed.value;
            && (e >= 3_600_000_000_000 ==> t.remaining == p.budget as real)
            && (e == 1_800_000_000_000 ==> t.remaining * 2.0 == p.budget as real)
  {
    RefillRate(p, s, cs);
    HourLaw(p.budget, Latest(s.lastAssessed.value, cs) - s.lastAssessed.value, Run(true, p, s, cs).remaining);
  }

  lemma HourLaw(budget: int, e: int, rest: real)
    requires 0 < budget
    requires PaidIn(0.0, rest, budget as real, (e * budget) as real)
    ensures e >= 3_600_000_000_000 ==> rest == budget as real
    ensures e == 1_800_000_000_000 ==> rest * 2.0 == budget as real
  {
    var earned, b := e * budget, budget as real;
    assert e >= 3_600_000_000_000 ==> earned >= 3_600_000_000_000 * budget;
    assert (3_600_000_000_000 * budget) as real == b * 3_600_000_000_000.0;
    assert e == 1_800_000_000_000 ==> earned as real == b * 1_800_000_000_000.0;
  }

  function AllExtra(cs: seq<Call>): seq<Marked> {
    if cs == [] then [] else [Extra(cs[0])] + AllExtra(cs[1..])
  }

  lemma {:induction false} AllExtraCalls(from: int, cs: seq<Call>)
    ensures AllCalls(AllExtra(cs)) == cs && BaseCalls(AllExtra(cs)) == [] && Extras(AllExtra(cs)) == |cs|
    ensures InOrder(from, cs) ==> LastAt(from, AllExtra(cs)) == Latest(from, cs)
    decreases |cs|
  {
    if cs != [] { AllExtraCalls(cs[0].at, cs[1..]); }
  }

  /** The stored budget of a steady run stays within a nanosecond a call of the
      exact one, whose rates are given above. */
  lemma StoredNearExact(p: Params, s: Slot, cs: seq<Call>)
    requires Sound(p) && p.budget > 0 && Inv(p, s) && s.lastAssessed.Some? && Whole(s.remaining)
    requires Steady(false, p, s, cs) && Steady(true, p, s, cs) && InOrder(s.lastAssessed.value, cs)
    ensures var stored, exact := Run(false, p, s, cs).remaining, Run(true, p, s, cs).remaining;
            if p.sustained > 0 && s.count > p.sustained then exact <= stored <= exact + |cs| as real
            else exact - |cs| as real <= stored <= exact
  {
    AllExtraCalls(s.lastAssessed.value, cs);
    LevelZero(p, s);
    GapRun(p, s, s, 0, AllExtra(cs));
    SteadyIsLevel(p, s, cs);
  }

  // ---- the bounds a tenant override must meet ---------------------------------------

  const MAX_CUSTOM_CONNECTION_LIMIT: int := 500_000

  datatype OverrideError = EnvOverride | InvalidLimit | IncompleteLimit | CeilingBelow | AbsoluteMax | BurstRatio

  function CheckOverride(envMax: int, sustained: int, ceiling: int): Option<OverrideError> {
    if envMax > 0 then Some(EnvOverride)
    else if sustained < 0 || ceiling < 0 then Some(InvalidLimit)
    else if (sustained == 0) != (ceiling == 0) then Some(IncompleteLimit)
    else if ceiling < sustained then Some(CeilingBelow)
    else if sustained > MAX_CUSTOM_CONNECTION_LIMIT || ceiling > MAX_CUSTOM_CONNECTION_LIMIT then Some(AbsoluteMax)
    else if ceiling > 2 * sustained then Some(BurstRatio)
    else None
  }

  /** Exactly when an override is accepted; zero for both clears it. */
  lemma OverrideIff(envMax: int, sustained: int, ceiling: int)
    ensures CheckOverride(envMax, sustained, ceiling) == None <==>
              envMax <= 0 && ((sustained == 0 && ceiling == 0) || (0 < sustained <= ceiling <= 2 * sustained && ceiling <= 500_000))
    ensures CheckOverride(envMax, sustained, ceiling) == Some(EnvOverride) <==> envMax > 0
    ensures CheckOverride(envMax, sustained, ceiling) == Some(BurstRatio) ==> 0 < 2 * sustained < ceiling <= 500_000
  {
  }

  /** An accepted override gives a slot whose full budget, held at the ceiling, lasts its own length. */
  lemma OverrideKeepsBudgetPromise(envMax: int, p: Params, s: Slot, cs: seq<Call>, now: int)
    requires CheckOverride(envMax, p.sustained, p.ceiling) == None && 0 <= p.budget
    requires Inv(p, s) && s.count <= p.ceiling && s.lastAssessed.Some? && s.remaining == p.budget as real
    requires s.lastAssessed.value <= now < s.lastAssessed.value + p.budget
    requires forall c | c in cs :: c.at <= now
    ensures Admit(false, p, Run(false, p, s, cs), now).1 <==> Run(false, p, s, cs).count + 1 <= p.ceiling
  {
    FullBudgetLasts(false, p, s, cs, now);
  }

  // ---- the slot as the program keeps it ----------------------------------------------

  class BurstSlotState {
    var count: int
    var burstRemaining: int
    var lastAssessed: Option<int>
    var expires: int
    var sustained: int
    var burstBudget: int

    function Snapshot(): Slot
      reads this
    {
      Slot(count, burstRemaining as real, lastAssessed, expires, sustained, burstBudget)
    }

    constructor ()
      ensures Snapshot() == Zero()
    {
      count, burstRemaining, lastAssessed, expires, sustained, burstBudget := 0, 0, None, 0, 0, 0;
    }

    method AdmitBurst(sustained: int, ceiling: int, burstBudget: int, ttl: int, now: int) returns (admitted: bool)
      modifies this
      ensures (Snapshot(), admitted) == Admit(false, Params(sustained, ceiling, burstBudget, ttl), old(Snapshot()), now)
      ensures admitted <==> old(count) + 1 <= ceiling && (old(count) + 1 <= sustained || burstRemaining > 0)
      ensures count == old(count) + (if admitted then 1 else 0) && expires == if admitted then now + ttl else old(expires)
      ensures this.sustained == sustained && this.burstBudget == burstBudget && lastAssessed.Some?
      ensures old(lastAssessed).None? ==> lastAssessed == Some(now) && burstRemaining == burstBudget
    {
      if lastAssessed.None? {
        burstRemaining, lastAssessed := burstBudget, Some(now);
      }
      this.sustained := sustained;
      this.burstBudget := burstBudget;
      if burstRemaining > burstBudget { burstRemaining := burstBudget; }
      AssessBurst(now);
      var newCount := count + 1;
      if newCount > ceiling { return false; }
      if newCount > sustained && burstRemaining <= 0 { return false; }
      count, expires := newCount, now + ttl;
      return true;
    }

    method AssessBurst(now: int)
      modifies this
      ensures Snapshot() == Assess(false, old(Snapshot()), now)
    {
      if lastAssessed.None? || burstBudget <= 0 { return; }
      var elapsed := now - lastAssessed.value;
      if elapsed <= 0 { return; }
      if sustained > 0 && count > sustained {
        var drain := ((elapsed * (count - sustained)) as real / sustained as real).Floor;
        burstRemaining := if burstRemaining - drain < 0 then 0 else burstRemaining - drain;
      } else {
        var refill := ((elapsed * burstBudget) as real / REFILL_WINDOW as real).Floor;
        burstRemaining := if burstRemaining + refill < burstBudget then burstRemaining + refill else burstBudget;
      }
      lastAssessed := Some(now);
    }

    method ReleaseBurst(now: int)
      modifies this
      ensures Snapshot() == Release(false, old(Snapshot()), now)
      ensures count == (if old(count) > 0 then old(count) - 1 else old(count)) && expires == old(expires)
    {
      AssessBurst(now);
      if count > 0 { count := count - 1; }
    }

    method RefreshBurst(ttl: int, now: int)
      modifies this
      ensures Snapshot() == Refresh(false, Params(sustained, 0, burstBudget, ttl), old(Snapshot()), now)
      ensures expires == now + ttl && count == old(count)
    {
      AssessBurst(now);
      expires := now + ttl;
    }
  }
}
