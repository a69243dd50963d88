/** The registered-player counter of a tenant. A sign-in of an unknown external
    player reads the quota context without a lock, upserts the player, and
    reserves a slot as its last statement before the commit; sign-ins, purges
    and changes of the limit interleave. An event that the state does not allow
    (a statement that waits for a lock among them) leaves it alone. */
module PlayerSlots {
  import opened Wrappers
  import opened Quota

  type External = string
  type CallId = nat

  /** A sign-in that creates its player; limit is the one it read at its start. */
  datatype Call =
    | Admitted(player: External, limit: int)
    | Upserted(player: External, limit: int)
    | Reserved(player: External, limit: int)

  datatype State = State(
    enforced: bool,
    limit: int,
    count: int,
    players: set<External>,
    calls: map<CallId, Call>)

  datatype Event =
    | SetEnforced(enforced: bool)
    | SetLimit(limit: int)
    | Purge(gone: set<External>)
    | Start(call: CallId, player: External)
    | Upsert(call: CallId)
    | Reserve(call: CallId)
    | Commit(call: CallId)
    | Abort(call: CallId)

  ghost predicate Initial(s: State) {
    s.count == 0 && s.players == {} && s.calls == map[] && UNLIMITED <= s.limit
  }

  /** checkPlayerQuotaSnapshot on the values read at the start. */
  predicate SnapshotAdmits(s: State) {
    s.enforced && s.limit != UNLIMITED ==> s.count < s.limit
  }

  /** The condition of the reserving update, on the row as it is now and the
      limit the call brought. */
  predicate SlotFree(s: State, limit: int) {
    !s.enforced || limit == UNLIMITED || s.count < limit
  }

  predicate RowWritten(s: State) {
    exists c :: c in s.calls && s.calls[c].Reserved?
  }

  predicate Writing(x: Call, p: External) { !x.Admitted? && x.player == p }

  predicate PlayerFree(s: State, p: External) {
    forall c | c in s.calls :: !Writing(s.calls[c], p)
  }

  function Goto(s: State, c: CallId, x: Call): State { s.(calls := s.calls[c := x]) }

  function Forget(s: State, c: CallId): State { s.(calls := s.calls - {c}) }

  function AtLeastZero(n: int): int { if n < 0 then 0 else n }

  function Next(s: State, e: Event): State {
    match e
    case SetEnforced(on) => if RowWritten(s) then s else s.(enforced := on)
    case SetLimit(n) => if n < UNLIMITED then s else s.(limit := n)
    case Purge(gone) =>
      if RowWritten(s) || !(gone <= s.players) || exists p | p in gone :: !PlayerFree(s, p) then s
      else s.(players := s.players - gone, count := AtLeastZero(s.count - |gone|))
    case Start(c, p) =>
      if c in s.calls || p in s.players || !SnapshotAdmits(s) then s else Goto(s, c, Admitted(p, s.limit))
    case Upsert(c) =>
      if c in s.calls && s.calls[c].Admitted? && PlayerFree(s, s.calls[c].player)
      then Goto(s, c, Upserted(s.calls[c].player, s.calls[c].limit)) else s
    case Reserve(c) =>
      if c !in s.calls || !s.calls[c].Upserted? || RowWritten(s) then s
      else if SlotFree(s, s.calls[c].limit) then Goto(s, c, Reserved(s.calls[c].player, s.calls[c].limit))
      else Forget(s, c)
    case Commit(c) =>
      if c in s.calls && s.calls[c].Reserved?
      then Forget(s, c).(count := s.count + 1, players := s.players + {s.calls[c].player}) else s
    case Abort(c) => Forget(s, c)
  }

  function Run(s: State, es: seq<Event>): State {
    if es == [] then s else Next(Run(s, es[..|es| - 1]), es[|es| - 1])
  }

  // ---- safety --------------------------------------------------------------------------

  ghost predicate Inv(s: State) {
    && |s.players| <= s.count && UNLIMITED <= s.limit
    && (forall c, d | c in s.calls && d in s.calls && s.calls[c].Reserved? && s.calls[d].Reserved? :: c == d)
    && (forall c | c in s.calls && s.calls[c].Reserved? :: SlotFree(s, s.calls[c].limit))
  }

  lemma MinusSubset(a: set<External>, b: set<External>)
    requires b <= a
    ensures |a - b| == |a| - |b|
  {
    assert a == (a - b) + b;
  }

  lemma StepKeeps(s: State, e: Event)
    requires Inv(s)
    ensures Inv(Next(s, e))
  {
    if e.Purge? && e.gone <= s.players { MinusSubset(s.players, e.gone); }
  }

  lemma {:induction false} RunKeeps(s: State, es: seq<Event>)
    requires Initial(s)
    ensures Inv(Run(s, es))
  {
    if es != [] {
      RunKeeps(s, es[..|es| - 1]);
      StepKeeps(Run(s, es[..|es| - 1]), es[|es| - 1]);
    }
  }

  /** The commit is that of a sign-in whose player another one created first. */
  predicate LostRace(s: State, e: Event) {
    e.Commit? && e.call in s.calls && s.calls[e.call].Reserved? && s.calls[e.call].player in s.players
  }

  function LostRaces(s: State, es: seq<Event>): nat {
    if es == [] then 0
    else LostRaces(s, es[..|es| - 1]) + if LostRace(Run(s, es[..|es| - 1]), es[|es| - 1]) then 1 else 0
  }

  /** The counter is never below the players created; what it has too many is
      exactly the number of upsert races lost. */
  lemma {:induction false} CounterExact(s: State, es: seq<Event>)
    requires Initial(s)
    ensures Run(s, es).count == |Run(s, es).players| + LostRaces(s, es)
  {
    if es != [] {
      var init, e := es[..|es| - 1], es[|es| - 1];
      CounterExact(s, init);
      RunKeeps(s, init);
      StepCounts(Run(s, init), e);
    }
  }

  lemma StepCounts(s: State, e: Event)
    requires Inv(s)
    ensures Next(s, e).count - |Next(s, e).players| == s.count - |s.players| + if LostRace(s, e) then 1 else 0
  {
    if e.Purge? && e.gone <= s.players { MinusSubset(s.players, e.gone); }
    if e.Commit? && e.call in s.calls {
      var p := s.calls[e.call].player;
      assert s.players * {p} == if p in s.players then {p} else {};
    }
  }

  /** Only a commit raises the counter, by one; and for an enforced tenant only
      up to the limit that the call read, however stale the rest of its
      snapshot is. */
  lemma RaisedWithinLimit(s: State, e: Event)
    requires Inv(s) && s.count < Next(s, e).count
    ensures e.Commit? && e.call in s.calls && s.calls[e.call].Reserved?
    ensures Next(s, e).count == s.count + 1
    ensures s.enforced && s.calls[e.call].limit != UNLIMITED ==> Next(s, e).count <= s.calls[e.call].limit
  {
    if e.Purge? && e.gone <= s.players { MinusSubset(s.players, e.gone); }
  }

  /** With a fixed limit and enforcement on throughout, the counter stays within
      the limit in every interleaving. */
  lemma {:induction false} NeverPastLimit(s: State, es: seq<Event>)
    requires Initial(s) && s.enforced && s.limit != UNLIMITED
    requires forall i | 0 <= i < |es| :: !es[i].SetLimit? && !es[i].SetEnforced?
    ensures var t := Run(s, es);
            && t.enforced && t.limit == s.limit && t.count <= s.limit && |t.players| <= s.limit
            && (forall c | c in t.calls :: t.calls[c].limit == s.limit)
  {
    RunKeeps(s, es);
    if es != [] {
      var init, e := es[..|es| - 1], es[|es| - 1];
      NeverPastLimit(s, init);
      RunKeeps(s, init);
      if Run(s, init).count < Run(s, es).count { RaisedWithinLimit(Run(s, init), e); }
    }
  }

  lemma RunSnoc(s: State, es: seq<Event>, e: Event)
    ensures Run(s, es + [e]) == Next(Run(s, es), e)
  {
    assert (es + [e])[..|es|] == es;
  }

  // ---- signInExternalPlayer ------------------------------------------------------------

  datatype SignInError = QuotaExceeded(limit: int) | Banned | Failed

  ghost predicate SameCall(s: State, t: State, c: CallId) {
    && (c in t.calls <==> c in s.calls) && (c in s.calls && c in t.calls ==> t.calls[c] == s.calls[c])
    && (c in s.calls && s.calls[c].Reserved? ==> t.count == s.count && t.enforced == s.enforced)
  }

  predicate About(e: Event, c: CallId) {
    (e.Start? || e.Upsert? || e.Reserve? || e.Commit? || e.Abort?) && e.call == c
  }

  lemma OthersLeaveCall(s: State, e: Event, c: CallId)
    requires !About(e, c)
    requires forall d | c in s.calls && d in s.calls && s.calls[c].Reserved? && s.calls[d].Reserved? :: c == d
    ensures SameCall(s, Next(s, e), c)
  {
  }

  /** Another sign-in holds the row of this player, or of the tenant. */
  ghost predicate Blocked(s: State, p: External) {
    exists d :: d in s.calls && ((!s.calls[d].Admitted? && s.calls[d].player == p) || s.calls[d].Reserved?)
  }

  lemma BlockedAfter(s: State, c: CallId, p: External)
    requires c in s.calls && !s.calls[c].Reserved?
    ensures RowWritten(s) ==> exists d :: d in Forget(s, c).calls && Forget(s, c).calls[d].Reserved?
    ensures s.calls[c].Admitted? && !PlayerFree(s, p) ==> Blocked(Forget(s, c), p)
  {
    var t := Forget(s, c);
    assert forall d | d in s.calls && d != c :: d in t.calls && t.calls[d] == s.calls[d];
  }

  /** A sign-in of an unknown player goes past the snapshot exactly if the tenant
      is not enforced, has no limit, or has not reached it. */
  lemma StartsIff(s: State, c: CallId, p: External)
    requires c !in s.calls
    ensures c in Next(s, Start(c, p)).calls <==> p !in s.players && (!s.enforced || s.limit == -1 || s.count < s.limit)
    ensures c in Next(s, Start(c, p)).calls ==> Next(s, Start(c, p)).calls[c] == Admitted(p, s.limit)
  {
  }

  /** A reservation is granted exactly if the tenant is not enforced, the limit it
      brings is no limit, or the counter has not reached that. */
  lemma ReservesIff(s: State, c: CallId)
    requires c in s.calls && s.calls[c].Upserted? && forall d | d in s.calls :: !s.calls[d].Reserved?
    ensures var x := s.calls[c];
            c in Next(s, Reserve(c)).calls <==> !s.enforced || x.limit == -1 || s.count < x.limit
    ensures c in Next(s, Reserve(c)).calls ==> Next(s, Reserve(c)).calls[c] == Reserved(s.calls[c].player, s.calls[c].limit)
  {
  }

  class Tenant {
    var world: State
    ghost const origin: State
    ghost var history: seq<Event>

    ghost predicate Valid()
      reads this
    {
      Initial(origin) && world == Run(origin, history) && Inv(world)
    }

    constructor (enforced: bool, limit: int)
      requires UNLIMITED <= limit
      ensures Valid() && history == []
    {
      var empty := State(enforced, limit, 0, {}, map[]);
      world, origin, history := empty, empty, [];
    }

    method Do(e: Event)
      requires Valid()
      modifies this
      ensures Valid() && world == Next(old(world), e) && history == old(history) + [e]
    {
      RunSnoc(origin, history, e);
      StepKeeps(world, e);
      world := Next(world, e);
      history := history + [e];
    }

    /** Any statements of other transactions, between two of the call c. */
    method Others(c: CallId)
      requires Valid()
      modifies this
      ensures Valid() && SameCall(old(world), world, c)
      ensures Commit(c) in history <==> Commit(c) in old(history)
    {
      var n: nat := *;
      while n > 0
        invariant Valid() && SameCall(old(world), world, c)
        invariant Commit(c) in history <==> Commit(c) in old(history)
      {
        var e: Event := *;
        if !About(e, c) {
          OthersLeaveCall(world, e, c);
          Do(e);
        }
        n := n - 1;
      }
    }

    /** signInExternalPlayer: the result tells whether this call took a slot; a
        refused or banned sign-in commits nothing. */
    method SignInExternal(c: CallId, player: External, banned: bool) returns (r: Result<bool, SignInError>)
      requires Valid() && c !in world.calls
      modifies this
      ensures Valid() && c !in world.calls
      ensures r.Ok? ==> !banned && player in world.players
      ensures r.Err? && r.error.QuotaExceeded? ==> world.enforced && r.error.limit != UNLIMITED && world.count >= r.error.limit
      ensures r == Err(Banned) ==> banned
      ensures r == Err(Failed) ==> Blocked(world, player)
      ensures Commit(c) in old(history) || (Commit(c) in history <==> r == Ok(true))
    {
      Others(c);
      if player in world.players { return if banned then Err(Banned) else Ok(false); }
      if !SnapshotAdmits(world) { return Err(QuotaExceeded(world.limit)); }
      Do(Start(c, player));
      Others(c);
      if !PlayerFree(world, player) {
        BlockedAfter(world, c, player);
        Do(Abort(c));
        return Err(Failed);
      }
      Do(Upsert(c));
      if banned { Do(Abort(c)); return Err(Banned); }
      r := ReserveAndCommit(c);
    }

    /** reservePlayerSlot, then the commit. */
    method ReserveAndCommit(c: CallId) returns (r: Result<bool, SignInError>)
      requires Valid() && c in world.calls && world.calls[c].Upserted?
      modifies this
      ensures Valid() && c !in world.calls && r != Ok(false) && r != Err(Banned)
      ensures r == Err(Failed) ==> exists d :: d in world.calls && world.calls[d].Reserved?
      ensures r.Ok? ==> old(world).calls[c].player in world.players
      ensures r.Err? && r.error.QuotaExceeded? ==>
                world.enforced && r.error.limit == old(world).calls[c].limit != UNLIMITED && world.count >= r.error.limit
      ensures r.Ok? && world.enforced && old(world).calls[c].limit != UNLIMITED ==> world.count <= old(world).calls[c].limit
      ensures Commit(c) in old(history) || (Commit(c) in history <==> r == Ok(true))
    {
      Others(c);
      if RowWritten(world) {
        BlockedAfter(world, c, world.calls[c].player);
        Do(Abort(c));
        return Err(Failed);
      }
      var limit := world.calls[c].limit;
      var free := SlotFree(world, limit);
      Do(Reserve(c));
      if !free { return Err(QuotaExceeded(limit)); }
      Others(c);
      Do(Commit(c));
      r := Ok(true);
    }
  }
}
