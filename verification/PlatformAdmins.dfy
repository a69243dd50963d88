/** Platform administrators of the control panel and their mirror in the RBAC
    store. Disabling a user is read, lock, count and write inside one
    transaction, and such transactions interleave; first-run setup, invite
    acceptance and enabling are whole transactions. An event that the state
    does not allow leaves it alone. */
module PlatformAdmins {
  import opened Wrappers
  import opened Sets

  type UserId = nat
  type CallId = nat

  datatype User = User(admin: bool, disabled: bool)

  /** A disable in flight: what it read of its target, and the admin rows it
      locked. */
  datatype Call =
    | Read(target: UserId, wasAdmin: bool)
    | Locked(target: UserId, rows: set<UserId>)
    | Counted(target: UserId, rows: set<UserId>)

  /** inviters: users with an open invitation of theirs; mirror: subjects that
      hold the platform-admin role in the RBAC store. */
  datatype State = State(
    users: map<UserId, User>,
    sessions: set<UserId>,
    inviters: set<UserId>,
    mirror: set<UserId>,
    calls: map<CallId, Call>)

  datatype Event =
    | Setup(user: UserId)
    | Join(user: UserId, admin: bool)
    | Promote(user: UserId)
    | Regrant(user: UserId)
    | Enable(user: UserId)
    | LogIn(user: UserId)
    | Invite(user: UserId)
    | ReadTarget(call: CallId, actor: UserId, target: UserId)
    | Lock(call: CallId)
    | Count(call: CallId)
    | Disable(call: CallId)
    | Abort(call: CallId)

  ghost predicate Initial(s: State) {
    s == State(map[], {}, {}, {}, map[])
  }

  function Enabled(s: State): set<UserId> {
    set u | u in s.users && !s.users[u].disabled
  }

  function EnabledAdmins(s: State): set<UserId> {
    set u | u in s.users && s.users[u].admin && !s.users[u].disabled
  }

  predicate Holds(s: State, c: CallId) {
    c in s.calls && !s.calls[c].Read?
  }

  /** Another disable than c holds the lock on some row of us. */
  predicate LockedByOther(s: State, c: CallId, us: set<UserId>) {
    exists d :: d in s.calls && d != c && Holds(s, d) && s.calls[d].rows * us != {}
  }

  predicate RowFree(s: State, u: UserId) {
    forall d | d in s.calls && Holds(s, d) :: u !in s.calls[d].rows
  }

  /** The write of c may go ahead. */
  predicate CanWrite(s: State, c: CallId) {
    && c in s.calls
    && (s.calls[c].Counted? || (s.calls[c].Read? && !s.calls[c].wasAdmin))
    && !LockedByOther(s, c, {s.calls[c].target})
  }

  /** The target was read as a platform admin. */
  predicate ReadAsAdmin(x: Call) { x.Read? ==> x.wasAdmin }

  function Forget(s: State, c: CallId): State { s.(calls := s.calls - {c}) }

  // ---- one step ------------------------------------------------------------------------

  function AddUser(s: State, u: UserId, admin: bool): State {
    s.(users := s.users[u := User(admin, false)], mirror := if admin then s.mirror + {u} else s.mirror)
  }

  function AfterPromote(s: State, u: UserId): State {
    s.(users := s.users[u := User(true, false)], mirror := s.mirror + {u})
  }

  function AfterEnable(s: State, u: UserId): State
    requires u in s.users
  {
    s.(users := s.users[u := s.users[u].(disabled := false)],
       mirror := if s.users[u].admin then s.mirror + {u} else s.mirror)
  }

  function AfterLock(s: State, c: CallId): State
    requires c in s.calls
  {
    s.(calls := s.calls[c := Locked(s.calls[c].target, EnabledAdmins(s))])
  }

  function AfterCount(s: State, c: CallId): State
    requires c in s.calls && s.calls[c].Locked?
  {
    if |EnabledAdmins(s)| <= 1 then Forget(s, c)
    else s.(calls := s.calls[c := Counted(s.calls[c].target, s.calls[c].rows)])
  }

  function AfterDisable(s: State, c: CallId): State
    requires c in s.calls
  {
    var u := s.calls[c].target;
    if u !in s.users then Forget(s, c)
    else Forget(s, c).(
         users := s.users[u := s.users[u].(disabled := true)],
         sessions := s.sessions - {u},
         inviters := s.inviters - {u},
         mirror := if ReadAsAdmin(s.calls[c]) then s.mirror - {u} else s.mirror)
  }

  function Next(s: State, e: Event): State {
    match e
    case Setup(u) => if s.users != map[] then s else AddUser(s, u, true)
    case Join(u, admin) => if s.users == map[] || u in s.users then s else AddUser(s, u, admin)
    case Promote(u) => if u in Enabled(s) && RowFree(s, u) then AfterPromote(s, u) else s
    case Regrant(u) => if u in EnabledAdmins(s) then s.(mirror := s.mirror + {u}) else s
    case Enable(u) => if u in s.users && RowFree(s, u) then AfterEnable(s, u) else s
    case LogIn(u) => if u in Enabled(s) then s.(sessions := s.sessions + {u}) else s
    case Invite(u) => if u in Enabled(s) then s.(inviters := s.inviters + {u}) else s
    case ReadTarget(c, actor, target) =>
      if c in s.calls || target !in s.users || actor == target then s
      else s.(calls := s.calls[c := Read(target, s.users[target].admin)])
    case Lock(c) =>
      if c in s.calls && s.calls[c].Read? && s.calls[c].wasAdmin && !LockedByOther(s, c, EnabledAdmins(s))
      then AfterLock(s, c) else s
    case Count(c) => if c in s.calls && s.calls[c].Locked? then AfterCount(s, c) else s
    case Disable(c) => if CanWrite(s, c) then AfterDisable(s, c) else s
    case Abort(c) => Forget(s, c)
  }

  function Run(s: State, es: seq<Event>): State {
    if es == [] then s else Next(Run(s, es[..|es| - 1]), es[|es| - 1])
  }

  // ---- safety ----------------------------------------------------------------------------

  /** The write of a disable whose target was read as an ordinary user and
      promoted to platform admin in the meantime. */
  predicate Stale(s: State, e: Event) {
    e.Disable? && CanWrite(s, e.call) && !ReadAsAdmin(s.calls[e.call]) && s.calls[e.call].target in EnabledAdmins(s)
  }

  predicate NoStale(s: State, es: seq<Event>) {
    forall i | 0 <= i < |es| :: !Stale(Run(s, es[..i]), es[i])
  }

  ghost predicate AdminLeft(s: State) { s.users != map[] ==> EnabledAdmins(s) != {} }

  ghost predicate Mirrored(s: State) { s.mirror == EnabledAdmins(s) }

  /** Holders of the admin lock exclude each other, keep what they locked
      enabled, and have counted right. */
  ghost predicate Guarded(s: State) {
    && (forall c, d | Holds(s, c) && Holds(s, d) :: c == d)
    && (forall c | Holds(s, c) :: s.calls[c].rows != {} && s.calls[c].rows <= EnabledAdmins(s))
    && (forall c | c in s.calls && s.calls[c].Counted? :: |EnabledAdmins(s)| >= 2)
    && (forall c | c in s.calls :: s.calls[c].target in s.users)
  }

  ghost predicate Inv(s: State) {
    && Guarded(s) && AdminLeft(s) && Mirrored(s)
    && s.sessions <= Enabled(s) && s.inviters <= Enabled(s)
  }

  /** Adding enabled users, admins or not, keeps everything. */
  lemma GainKeeps(s: State, t: State, u: UserId, admin: bool)
    requires Inv(s) && t.calls == s.calls && t.sessions == s.sessions && t.inviters == s.inviters
    requires t.users == s.users[u := User(admin, false)]
    requires u in s.users && s.users[u].admin ==> admin
    requires t.mirror == if admin then s.mirror + {u} else s.mirror
    requires s.users == map[] ==> admin
    ensures Inv(t)
  {
    assert EnabledAdmins(t) == if admin then EnabledAdmins(s) + {u} else EnabledAdmins(s);
    assert Enabled(t) == Enabled(s) + {u};
    SubsetSize(EnabledAdmins(s), EnabledAdmins(t));
    assert forall c :: Holds(t, c) == Holds(s, c);
  }

  lemma CallsOnlyKeeps(s: State, t: State)
    requires Inv(s) && t.users == s.users && t.mirror == s.mirror
    requires t.sessions <= Enabled(s) && t.inviters <= Enabled(s) && Guarded(t)
    ensures Inv(t)
  {
    assert EnabledAdmins(t) == EnabledAdmins(s) && Enabled(t) == Enabled(s);
  }

  lemma ForgetKeeps(s: State, c: CallId)
    requires Inv(s)
    ensures Inv(Forget(s, c))
  {
    var t := Forget(s, c);
    assert EnabledAdmins(t) == EnabledAdmins(s);
    assert forall d :: Holds(t, d) ==> Holds(s, d);
    CallsOnlyKeeps(s, t);
  }

  lemma LockKeeps(s: State, c: CallId)
    requires Inv(s)
    ensures Inv(Next(s, Lock(c)))
  {
    var t := Next(s, Lock(c));
    assert EnabledAdmins(t) == EnabledAdmins(s);
    forall d | Holds(s, d) && d != c ensures LockedByOther(s, c, EnabledAdmins(s)) {
      assert s.calls[d].rows * EnabledAdmins(s) == s.calls[d].rows;
    }
    if t != s {
      assert forall d :: Holds(t, d) ==> d == c;
    }
    CallsOnlyKeeps(s, t);
  }

  lemma CountKeeps(s: State, c: CallId)
    requires Inv(s)
    ensures Inv(Next(s, Count(c)))
  {
    var t := Next(s, Count(c));
    assert EnabledAdmins(t) == EnabledAdmins(s);
    if c in s.calls && s.calls[c].Locked? {
      if |EnabledAdmins(s)| <= 1 { ForgetKeeps(s, c); }
      else {
        assert forall d :: Holds(t, d) == Holds(s, d);
        CallsOnlyKeeps(s, t);
      }
    }
  }

  lemma ReadKeeps(s: State, c: CallId, actor: UserId, target: UserId)
    requires Inv(s)
    ensures Inv(Next(s, ReadTarget(c, actor, target)))
  {
    var t := Next(s, ReadTarget(c, actor, target));
    assert EnabledAdmins(t) == EnabledAdmins(s);
    assert forall d :: Holds(t, d) == Holds(s, d);
    CallsOnlyKeeps(s, t);
  }

  /** What a write leaves, whether or not its read was stale. */
  lemma DisableEffect(s: State, c: CallId)
    requires Inv(s) && CanWrite(s, c)
    ensures var t := AfterDisable(s, c); var u := s.calls[c].target;
            && EnabledAdmins(t) == EnabledAdmins(s) - {u}
            && Enabled(t) == Enabled(s) - {u}
            && t.mirror == (if ReadAsAdmin(s.calls[c]) then s.mirror - {u} else s.mirror)
            && t.calls == s.calls - {c} && t.users != map[]
  {
    var t := AfterDisable(s, c);
    assert s.calls[c].target in t.users;
  }

  lemma DisableKeeps(s: State, c: CallId)
    requires Inv(s) && CanWrite(s, c) && !Stale(s, Disable(c))
    ensures Inv(AfterDisable(s, c))
  {
    DisableEffect(s, c);
    var t, u := AfterDisable(s, c), s.calls[c].target;
    var before, after := EnabledAdmins(s), EnabledAdmins(t);
    assert forall d :: Holds(t, d) ==> Holds(s, d) && t.calls[d] == s.calls[d];
    if s.calls[c].Counted? {
      assert forall d :: !Holds(t, d);
      assert before <= after + {u};
      SubsetSize(before, after + {u});
      assert |after + {u}| <= |after| + 1;
    } else {
      assert u !in before && after == before;
    }
  }

  /** One step, from any state of a run without stale writes: the mirror stays
      exact if and only if the step is not a stale write, and an enabled admin
      remains if and only if it is not a stale write upon the only one. */
  lemma StepExactly(s: State, e: Event)
    requires Inv(s)
    ensures !Stale(s, e) ==> Inv(Next(s, e))
    ensures Mirrored(Next(s, e)) <==> !Stale(s, e)
    ensures AdminLeft(Next(s, e)) <==> !(Stale(s, e) && EnabledAdmins(s) == {s.calls[e.call].target})
  {
    match e
    case Setup(u) => if s.users == map[] { GainKeeps(s, Next(s, e), u, true); }
    case Join(u, admin) => if !(s.users == map[] || u in s.users) { GainKeeps(s, Next(s, e), u, admin); }
    case Promote(u) => if u in Enabled(s) && RowFree(s, u) { GainKeeps(s, Next(s, e), u, true); }
    case Enable(u) => if u in s.users && RowFree(s, u) { GainKeeps(s, Next(s, e), u, s.users[u].admin); }
    case Regrant(u) => assert Next(s, e).mirror == s.mirror; HarmlessKeeps(s, Next(s, e));
    case LogIn(u) => HarmlessKeeps(s, Next(s, e));
    case Invite(u) => HarmlessKeeps(s, Next(s, e));
    case ReadTarget(c, actor, target) => ReadKeeps(s, c, actor, target);
    case Lock(c) => LockKeeps(s, c);
    case Count(c) => CountKeeps(s, c);
    case Abort(c) => ForgetKeeps(s, c);
    case Disable(c) =>
      if Stale(s, e) {
        DisableEffect(s, c);
        assert EnabledAdmins(s) - {s.calls[c].target} == {} <==> EnabledAdmins(s) == {s.calls[c].target};
      } else if CanWrite(s, c) { DisableKeeps(s, c); }
  }

  lemma HarmlessKeeps(s: State, t: State)
    requires Inv(s) && t.users == s.users && t.mirror == s.mirror && t.calls == s.calls
    requires t.sessions <= Enabled(s) && t.inviters <= Enabled(s)
    ensures Inv(t)
  {
    assert EnabledAdmins(t) == EnabledAdmins(s);
    assert forall d :: Holds(t, d) == Holds(s, d);
    CallsOnlyKeeps(s, t);
  }

  lemma {:induction false} RunKeeps(s: State, es: seq<Event>)
    requires Initial(s) && NoStale(s, es)
    ensures Inv(Run(s, es))
  {
    if es == [] {
      assert EnabledAdmins(s) == {};
    } else {
      var init := es[..|es| - 1];
      forall i | 0 <= i < |init| ensures !Stale(Run(s, init[..i]), init[i]) { assert init[..i] == es[..i]; }
      RunKeeps(s, init);
      StepExactly(Run(s, init), es[|es| - 1]);
    }
  }

  /** In every interleaving of disables with everything else, short of a stale
      write, an installation that has users has an enabled platform admin, the
      RBAC store names exactly the enabled platform admins, and a disabled user
      has no live session and no open invitation. */
  lemma AlwaysAnAdmin(s: State, es: seq<Event>)
    requires Initial(s) && NoStale(s, es)
    ensures var t := Run(s, es);
            && (t.users != map[] ==> exists u :: u in t.users && t.users[u].admin && !t.users[u].disabled)
            && (forall u :: u in t.mirror <==> u in t.users && t.users[u].admin && !t.users[u].disabled)
            && (forall u :: u in t.users && t.users[u].disabled ==> u !in t.sessions && u !in t.inviters)
  {
    RunKeeps(s, es);
    var t := Run(s, es);
    if t.users != map[] {
      var u :| u in EnabledAdmins(t);
    }
  }

  /** A live session or an open invitation ends only by a disable of its own user. */
  lemma LosesOnlyByDisable(s: State, e: Event, v: UserId)
    ensures v in s.sessions && v !in Next(s, e).sessions ==> e.Disable? && CanWrite(s, e.call) && s.calls[e.call].target == v
    ensures v in s.inviters && v !in Next(s, e).inviters ==> e.Disable? && CanWrite(s, e.call) && s.calls[e.call].target == v
    ensures v in Next(s, e).sessions && v !in s.sessions ==> e == LogIn(v)
    ensures v in Next(s, e).inviters && v !in s.inviters ==> e == Invite(v)
  {
  }

  /** Nobody is disabled by themselves: a user against whom nobody else acts
      stays enabled. */
  lemma {:induction false} OnlyOthersDisable(s: State, es: seq<Event>, u: UserId)
    requires Initial(s) && forall i | 0 <= i < |es| :: es[i].ReadTarget? && es[i].target == u ==> es[i].actor == u
    ensures var t := Run(s, es);
            && (u in t.users ==> !t.users[u].disabled)
            && (forall c | c in t.calls :: t.calls[c].target != u)
  {
    if es != [] {
      OnlyOthersDisable(s, es[..|es| - 1], u);
      NoCallOn(Run(s, es[..|es| - 1]), es[|es| - 1], u);
    }
  }

  lemma NoCallOn(s: State, e: Event, u: UserId)
    requires (u in s.users ==> !s.users[u].disabled) && forall c | c in s.calls :: s.calls[c].target != u
    requires e.ReadTarget? && e.target == u ==> e.actor == u
    ensures var t := Next(s, e); (u in t.users ==> !t.users[u].disabled) && forall c | c in t.calls :: t.calls[c].target != u
  {
  }

  /** The flag of a user that already exists goes up only by a promotion, and
      never down. */
  lemma AdminOnlyByPromotion(s: State, e: Event, u: UserId)
    requires u in s.users
    ensures u in Next(s, e).users && (s.users[u].admin ==> Next(s, e).users[u].admin)
    ensures Next(s, e).users[u].admin && !s.users[u].admin ==> e == Promote(u)
  {
  }

  /** Without promotions of existing users no write is stale. */
  lemma {:induction false} NoPromotionNoStale(s: State, es: seq<Event>)
    requires Initial(s) && forall i | 0 <= i < |es| :: !es[i].Promote?
    ensures NoStale(s, es)
  {
    forall i | 0 <= i < |es| ensures !Stale(Run(s, es[..i]), es[i]) {
      ReadsHold(s, es[..i]);
    }
  }

  lemma {:induction false} ReadsHold(s: State, es: seq<Event>)
    requires Initial(s) && forall i | 0 <= i < |es| :: !es[i].Promote?
    ensures ReadsTrue(Run(s, es))
  {
    if es != [] {
      ReadsHold(s, es[..|es| - 1]);
      ReadsHoldStep(Run(s, es[..|es| - 1]), es[|es| - 1]);
    }
  }

  /** What a disable read as an ordinary user still is one. */
  ghost predicate ReadsTrue(s: State) {
    forall c | c in s.calls :: s.calls[c].target in s.users && (s.users[s.calls[c].target].admin ==> ReadAsAdmin(s.calls[c]))
  }

  lemma ReadsHoldStep(s: State, e: Event)
    requires ReadsTrue(s) && !e.Promote?
    ensures ReadsTrue(Next(s, e))
  {
    var t := Next(s, e);
    forall c | c in t.calls
      ensures t.calls[c].target in t.users && (t.users[t.calls[c].target].admin ==> ReadAsAdmin(t.calls[c]))
    {
      assert c in s.calls ==> t.calls[c].target == s.calls[c].target;
    }
  }

  /** The race that is left: the target of a disable is promoted after it was
      read, the only other admin is disabled, and the stale write then removes
      the last admin and leaves the RBAC store granting the role to nobody
      enabled. */
  lemma StaleWriteLosesLastAdmin()
    ensures exists s: State, es: seq<Event> ::
              Initial(s) && Run(s, es).users != map[] && EnabledAdmins(Run(s, es)) == {} && Run(s, es).mirror == {2}
  {
    var s := State(map[], {}, {}, {}, map[]);
    var s4, s7 := RaceState({1, 2}, map[7 := Read(2, false)]), RaceState({1, 2}, map[7 := Read(2, false), 8 := Counted(1, {1, 2})]);
    var before := [Setup(1), Join(2, false), ReadTarget(7, 1, 2), Promote(2)];
    var middle := [ReadTarget(8, 2, 1), Lock(8), Count(8)];
    var after := [Disable(8), Disable(7)];
    RaceBegins(s, before);
    RaceCounts(s4, middle);
    RaceEnds(s7, after);
    RaceRuns(s, s4, s7, before, middle, after);
  }

  lemma RaceRuns(s: State, s4: State, s7: State, before: seq<Event>, middle: seq<Event>, after: seq<Event>)
    requires Run(s, before) == s4 && Run(s4, middle) == s7 && Run(s7, after) == RaceState({}, map[])
    ensures var t := Run(s, before + middle + after); t.users != map[] && EnabledAdmins(t) == {} && t.mirror == {2}
  {
    RunJoins(s, before, middle);
    RunJoins(s, before + middle, after);
    assert 1 in RaceState({}, map[]).users;
  }

  function RaceState(enabled: set<UserId>, calls: map<CallId, Call>): State {
    State(map[1 := User(true, 1 !in enabled), 2 := User(true, 2 !in enabled)], {}, {}, enabled + {2}, calls)
  }

  lemma RaceBegins(s: State, es: seq<Event>)
    requires Initial(s) && es == [Setup(1), Join(2, false), ReadTarget(7, 1, 2), Promote(2)]
    ensures Run(s, es) == RaceState({1, 2}, map[7 := Read(2, false)])
  {
    var s1, s2 := AddUser(s, 1, true), AddUser(AddUser(s, 1, true), 2, false);
    var s3 := s2.(calls := map[7 := Read(2, false)]);
    assert 1 in s1.users && 2 in Enabled(s3) && RowFree(s3, 2);
    assert Next(s, Setup(1)) == s1 && Next(s1, Join(2, false)) == s2;
    assert Next(s2, ReadTarget(7, 1, 2)) == s3;
    assert Next(s3, Promote(2)) == AfterPromote(s3, 2) == RaceState({1, 2}, map[7 := Read(2, false)]);
    RunsTo(s, es, 0, s, s1);
    RunsTo(s, es, 1, s1, s2);
    RunsTo(s, es, 2, s2, s3);
    RunsTo(s, es, 3, s3, AfterPromote(s3, 2));
    assert es[..4] == es;
  }

  lemma RaceCounts(s: State, es: seq<Event>)
    requires s == RaceState({1, 2}, map[7 := Read(2, false)]) && es == [ReadTarget(8, 2, 1), Lock(8), Count(8)]
    ensures Run(s, es) == RaceState({1, 2}, map[7 := Read(2, false), 8 := Counted(1, {1, 2})])
  {
    var s1 := RaceState({1, 2}, map[7 := Read(2, false), 8 := Read(1, true)]);
    var s2 := RaceState({1, 2}, map[7 := Read(2, false), 8 := Locked(1, {1, 2})]);
    assert Next(s, ReadTarget(8, 2, 1)) == s1;
    RunsTo(s, es, 0, s, s1);
    RaceLocks(s1, s2);
    RunsTo(s, es, 1, s1, s2);
    RunsTo(s, es, 2, s2, AfterCount(s2, 8));
    assert es[..3] == es;
  }

  lemma RaceLocks(s: State, t: State)
    requires s == RaceState({1, 2}, map[7 := Read(2, false), 8 := Read(1, true)])
    requires t == RaceState({1, 2}, map[7 := Read(2, false), 8 := Locked(1, {1, 2})])
    ensures Next(s, Lock(8)) == t
    ensures AfterCount(t, 8) == RaceState({1, 2}, map[7 := Read(2, false), 8 := Counted(1, {1, 2})])
  {
    assert EnabledAdmins(s) == {1, 2} && EnabledAdmins(t) == {1, 2} && |{1, 2}| == 2;
    assert AfterLock(s, 8) == t;
  }

  lemma RaceEnds(s: State, es: seq<Event>)
    requires s == RaceState({1, 2}, map[7 := Read(2, false), 8 := Counted(1, {1, 2})])
    requires es == [Disable(8), Disable(7)]
    ensures Run(s, es) == RaceState({}, map[])
  {
    var s1 := RaceState({2}, map[7 := Read(2, false)]);
    assert CanWrite(s, 8) && CanWrite(s1, 7);
    assert Next(s, Disable(8)) == AfterDisable(s, 8) == s1;
    assert Next(s1, Disable(7)) == AfterDisable(s1, 7) == RaceState({}, map[]);
    RunsTo(s, es, 0, s, s1);
    RunsTo(s, es, 1, s1, RaceState({}, map[]));
    assert es[..2] == es;
  }

  lemma {:induction false} RunJoins(s: State, xs: seq<Event>, ys: seq<Event>)
    ensures Run(s, xs + ys) == Run(Run(s, xs), ys)
  {
    if ys == [] {
      assert xs + ys == xs;
    } else {
      RunJoins(s, xs, ys[..|ys| - 1]);
      assert (xs + ys)[..|xs + ys| - 1] == xs + ys[..|ys| - 1];
    }
  }

  lemma RunsTo(s: State, es: seq<Event>, i: nat, t: State, u: State)
    requires i < |es| && Run(s, es[..i]) == t && Next(t, es[i]) == u
    ensures Run(s, es[..i + 1]) == u
  {
    assert es[..i + 1][..i] == es[..i];
  }

  lemma RunSnoc(s: State, es: seq<Event>, e: Event)
    ensures Run(s, es + [e]) == Next(Run(s, es), e)
  {
    assert (es + [e])[..|es|] == es;
  }

  lemma NoStaleSnoc(s: State, es: seq<Event>, e: Event)
    requires NoStale(s, es + [e])
    ensures NoStale(s, es) && !Stale(Run(s, es), e)
  {
    assert (es + [e])[..|es|] == es;
    forall i | 0 <= i < |es| ensures !Stale(Run(s, es[..i]), es[i]) {
      assert (es + [e])[..i] == es[..i] && (es + [e])[i] == es[i];
    }
  }

  // ---- the handlers ----------------------------------------------------------------------

  datatype ToggleError = CannotDisableSelf | CannotDisableLastAdmin | NotFound | Failed

  datatype InviteError = DisabledAccount | InvalidCredentials | WeakPassword | PromotionFailed

  datatype Invitee = Newcomer(strongPassword: bool) | Known(user: UserId, passwordMatches: bool)

  ghost predicate SameCall(s: State, t: State, c: CallId) {
    (c in t.calls <==> c in s.calls) && (c in s.calls && c in t.calls ==> t.calls[c] == s.calls[c])
  }

  predicate About(e: Event, c: CallId) {
    (e.ReadTarget? || e.Lock? || e.Count? || e.Disable? || e.Abort?) && e.call == c
  }

  lemma OthersLeaveCall(s: State, e: Event, c: CallId)
    requires !About(e, c)
    ensures SameCall(s, Next(s, e), c) && s.users.Keys <= Next(s, e).users.Keys
  {
  }

  lemma AbortForgets(s: State, c: CallId)
    ensures Next(s, Abort(c)) == Forget(s, c)
  {
  }

  /** A row that the disable needs is locked by another one. */
  ghost predicate Blocked(s: State, c: CallId, target: UserId) {
    LockedByOther(s, c, EnabledAdmins(s)) || LockedByOther(s, c, {target})
  }

  /** Giving up leaves the other call its lock. */
  lemma BlockedAfter(s: State, c: CallId, us: set<UserId>)
    requires LockedByOther(s, c, us)
    ensures LockedByOther(Forget(s, c), c, us) && EnabledAdmins(Forget(s, c)) == EnabledAdmins(s)
  {
    var d :| d in s.calls && d != c && Holds(s, d) && s.calls[d].rows * us != {};
    assert Holds(Forget(s, c), d) && Forget(s, c).calls[d] == s.calls[d];
  }

  class AdminService {
    var world: State
    ghost const origin: State
    ghost var history: seq<Event>

    ghost predicate Valid()
      reads this
    {
      Initial(origin) && world == Run(origin, history) && (NoStale(origin, history) ==> Inv(world))
    }

    constructor ()
      ensures Valid() && history == []
    {
      world, origin, history := State(map[], {}, {}, {}, map[]), State(map[], {}, {}, {}, map[]), [];
      new;
      RunKeeps(origin, []);
    }

    method Do(e: Event)
      requires Valid()
      modifies this
      ensures Valid() && world == Next(old(world), e) && history == old(history) + [e]
    {
      RunSnoc(origin, history, e);
      if NoStale(origin, history + [e]) {
        NoStaleSnoc(origin, history, e);
        StepExactly(world, e);
      }
      world := Next(world, e);
      history := history + [e];
    }

    /** Any other requests, between two steps of the disable c. */
    method Others(c: CallId)
      requires Valid()
      modifies this
      ensures Valid() && SameCall(old(world), world, c) && old(world).users.Keys <= world.users.Keys
      ensures Disable(c) in history <==> Disable(c) in old(history)
    {
      var n: nat := *;
      while n > 0
        invariant Valid() && SameCall(old(world), world, c) && old(world).users.Keys <= world.users.Keys
        invariant Disable(c) in history <==> Disable(c) in old(history)
      {
        var e: Event := *;
        if !About(e, c) {
          OthersLeaveCall(world, e, c);
          Do(e);
        }
        n := n - 1;
      }
    }

    /** Rolls the call back. */
    method GiveUp(c: CallId)
      requires Valid()
      modifies this
      ensures Valid() && world == Forget(old(world), c) && history == old(history) + [Abort(c)]
    {
      AbortForgets(world, c);
      Do(Abort(c));
    }

    /** createFirstAdmin: only an installation without users takes it. */
    method CreateFirstAdmin(u: UserId) returns (ok: bool)
      requires Valid()
      modifies this
      ensures Valid() && ok == (old(world).users == map[])
      ensures ok ==> world == old(world).(users := map[u := User(true, false)], mirror := old(world).mirror + {u})
      ensures !ok ==> world == old(world)
    {
      ok := world.users == map[];
      Do(Setup(u));
    }

    /** resolveInviteUser and applyInviteRoles, for a person with a valid invite. */
    method AcceptInvite(id: UserId, who: Invitee, platformAdmin: bool) returns (r: Result<UserId, InviteError>)
      requires Valid() && world.users != map[] && id !in world.users
      requires who.Known? ==> who.user in world.users
      modifies this
      ensures Valid()
      ensures r.Err? ==> world == old(world)
      ensures r == Err(WeakPassword) <==> who.Newcomer? && !who.strongPassword
      ensures r == Err(InvalidCredentials) <==> who.Known? && !old(world).users[who.user].disabled && !who.passwordMatches
      ensures r == Err(DisabledAccount) <==> who.Known? && old(world).users[who.user].disabled
      ensures r == Err(PromotionFailed) <==> (
                && platformAdmin && who.Known? && !old(world).users[who.user].disabled && who.passwordMatches
                && !old(world).users[who.user].admin && !RowFree(old(world), who.user))
      ensures r.Ok? ==> (
                && r.value == (if who.Known? then who.user else id)
                && world.users == old(world).users[r.value :=
                     User(platformAdmin || (who.Known? && old(world).users[who.user].admin), false)]
                && world.mirror == (if platformAdmin then old(world).mirror + {r.value} else old(world).mirror)
                && world.calls == old(world).calls)
    {
      match who
      case Newcomer(strongPassword) =>
        if !strongPassword { return Err(WeakPassword); }
        Do(Join(id, platformAdmin));
        r := Ok(id);
      case Known(user, passwordMatches) =>
        if world.users[user].disabled { return Err(DisabledAccount); }
        if !passwordMatches { return Err(InvalidCredentials); }
        if platformAdmin && !world.users[user].admin {
          if !RowFree(world, user) { return Err(PromotionFailed); }
          Do(Promote(user));
        } else if platformAdmin {
          Do(Regrant(user));
        }
        r := Ok(user);
    }

    /** toggleControlPanelUserDisabled with disable unset: the sessions and
        invitations stay revoked. */
    method EnableUser(target: UserId) returns (r: Result<(), ToggleError>)
      requires Valid()
      modifies this
      ensures Valid() && r.Ok? == (target in old(world).users && RowFree(old(world), target))
      ensures r == Err(NotFound) <==> target !in old(world).users
      ensures world == if r.Ok? then AfterEnable(old(world), target) else old(world)
    {
      if target !in world.users { return Err(NotFound); }
      if !RowFree(world, target) { return Err(Failed); }
      Do(Enable(target));
      r := Ok(());
    }

    /** toggleControlPanelUserDisabled with disable set. */
    method DisableUser(c: CallId, actor: UserId, target: UserId) returns (r: Result<(), ToggleError>)
      requires Valid() && c !in world.calls
      modifies this
      ensures Valid() && c !in world.calls
      ensures r == Err(CannotDisableSelf) <==> actor == target
      ensures r.Err? ==> (Disable(c) in history <==> Disable(c) in old(history))
      ensures r.Ok? ==> Gone(world, target)
      ensures r == Err(CannotDisableLastAdmin) ==> |EnabledAdmins(world)| <= 1
      ensures r == Err(NotFound) ==> target !in world.users
      ensures r == Err(Failed) ==> Blocked(world, c, target)
      ensures NoStale(origin, history) ==> AdminLeft(world) && Mirrored(world)
    {
      if actor == target { return Err(CannotDisableSelf); }
      Others(c);
      if target !in world.users { return Err(NotFound); }
      Do(ReadTarget(c, actor, target));
      Others(c);
      if world.calls[c].wasAdmin {
        r := GuardLastAdmin(c);
        if r.Err? { return; }
      }
      r := Write(c);
    }

    /** Lock the enabled platform admins, then count them. */
    method GuardLastAdmin(c: CallId) returns (r: Result<(), ToggleError>)
      requires Valid() && c in world.calls && world.calls[c].Read? && world.calls[c].wasAdmin
      modifies this
      ensures Valid() && old(world).users.Keys <= world.users.Keys && r != Err(CannotDisableSelf)
      ensures Disable(c) in history <==> Disable(c) in old(history)
      ensures r.Ok? ==> c in world.calls && world.calls[c].Counted? && world.calls[c].target == old(world).calls[c].target
      ensures r.Err? ==> c !in world.calls
      ensures r == Err(CannotDisableLastAdmin) ==> |EnabledAdmins(world)| <= 1
      ensures r.Err? ==> r == Err(CannotDisableLastAdmin) || (r == Err(Failed) && LockedByOther(world, c, EnabledAdmins(world)))
    {
      if LockedByOther(world, c, EnabledAdmins(world)) {
        BlockedAfter(world, c, EnabledAdmins(world));
        GiveUp(c);
        return Err(Failed);
      }
      LockAdmins(c);
      r := CountAdmins(c);
    }

    method LockAdmins(c: CallId)
      requires Valid() && c in world.calls && world.calls[c].Read? && world.calls[c].wasAdmin
      requires !LockedByOther(world, c, EnabledAdmins(world))
      modifies this
      ensures Valid() && world == AfterLock(old(world), c) && history == old(history) + [Lock(c)]
    {
      Do(Lock(c));
    }

    method CountAdmins(c: CallId) returns (r: Result<(), ToggleError>)
      requires Valid() && c in world.calls && world.calls[c].Locked?
      modifies this
      ensures Valid() && old(world).users.Keys <= world.users.Keys && (r.Err? ==> r == Err(CannotDisableLastAdmin))
      ensures Disable(c) in history <==> Disable(c) in old(history)
      ensures r.Ok? ==> c in world.calls && world.calls[c].Counted? && world.calls[c].target == old(world).calls[c].target
      ensures r.Err? ==> c !in world.calls && |EnabledAdmins(world)| <= 1
      ensures r.Ok? ==> |EnabledAdmins(world)| >= 2
    {
      Others(c);
      var admins := |EnabledAdmins(world)|;
      ghost var before := EnabledAdmins(world);
      Do(Count(c));
      assert EnabledAdmins(world) == before;
      r := if admins <= 1 then Err(CannotDisableLastAdmin) else Ok(());
    }

    method Write(c: CallId) returns (r: Result<(), ToggleError>)
      requires Valid() && c in world.calls && world.calls[c].target in world.users
      requires world.calls[c].Counted? || (world.calls[c].Read? && !world.calls[c].wasAdmin)
      modifies this
      ensures Valid() && c !in world.calls && r != Err(CannotDisableSelf) && r != Err(CannotDisableLastAdmin)
      ensures r.Err? ==> (Disable(c) in history <==> Disable(c) in old(history))
      ensures r.Err? ==> r == Err(Failed) && LockedByOther(world, c, {old(world).calls[c].target})
      ensures r.Ok? ==> Gone(world, old(world).calls[c].target)
    {
      Others(c);
      if !CanWrite(world, c) {
        BlockedAfter(world, c, {world.calls[c].target});
        GiveUp(c);
        return Err(Failed);
      }
      Do(Disable(c));
      r := Ok(());
    }
  }

  /** The account is disabled, signed out, and has no open invitation. */
  predicate Gone(s: State, u: UserId) {
    u in s.users && s.users[u].disabled && u !in s.sessions && u !in s.inviters
  }
}
