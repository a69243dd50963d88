/** Rows of the control panel that are reviewed or redeemed once: tenant change
    requests, team invitations and signup approvals. An approval reads its
    request in one transaction and flips and applies it in a second one; an
    accept looks its row up, does its work and flips the row last. The model
    steps through the statements of these transactions: a flip takes the row
    lock, what a transaction wrote shows at its commit, and a rollback drops it.
    An event that the state does not allow (a statement that waits for a lock
    among them) leaves it alone. */
module GuardedRequests {
  import opened Wrappers
  import opened Quota

  type RowId = nat
  type UserId = nat
  type TenantId = nat
  type CallId = nat

  const AXIS_OPEN_SESSIONS := "open_sessions"

  datatype Item =
    | Change(tenant: TenantId, kind: string, tier: Option<int>, feature: Option<string>, limit: Option<int>)
    | Invitation(inviter: UserId, place: Option<TenantId>, role: string, expires: int)
    | Signup(name: string, codeExpires: int)

  /** Waiting: a signup not yet reviewed. Open: a pending change request, an
      open invitation, an approved signup. Consumed: approved, accepted,
      accepted. Closed: denied, revoked, denied. */
  datatype Status = Waiting | Open | Consumed | Closed

  datatype Row = Row(item: Item, status: Status)

  datatype Tenant = Tenant(name: string, tier: int, features: set<string>, overrides: map<string, int>)

  datatype Tables = Tables(
    tenants: map<TenantId, Tenant>,
    members: map<(UserId, TenantId), string>,
    admins: set<UserId>)

  /** What consuming a row writes. */
  datatype Effect =
    | NewTier(tenant: TenantId, tier: int)
    | Grant(tenant: TenantId, feature: string)
    | Override(tenant: TenantId, axis: string, limit: int)
    | Join(user: UserId, admin: bool, place: Option<TenantId>, role: string)
    | Found(user: UserId, tenant: TenantId, name: string)

  datatype Call =
    | Looked(row: RowId, item: Item)
    | Flipped(row: RowId, item: Item)
    | Worked(row: RowId, item: Item, effect: Effect)
    | Ready(row: RowId, item: Item, effect: Effect)

  /** issued and founded: the identifiers drawn from the two sequences. */
  datatype State = State(
    tables: Tables,
    rows: map<RowId, Row>,
    issued: set<RowId>,
    founded: set<TenantId>,
    calls: map<CallId, Call>)

  datatype Event =
    | AddTenant(tenant: TenantId, name: string, tier: int)
    | SetTier(tenant: TenantId, tier: int)
    | Submit(row: RowId, item: Item)
    | ApproveSignup(row: RowId, name: string, expires: int)
    | Close(row: RowId)
    | RevokeAllBy(inviter: UserId)
    | Sweep(now: int)
    | LookUp(call: CallId, row: RowId, now: int)
    | Work(call: CallId, user: UserId, tenant: TenantId)
    | Flip(call: CallId)
    | Apply(call: CallId)
    | Commit(call: CallId)
    | Abort(call: CallId)

  datatype ApplyError = NotAnUpgrade | AboveHardCap | InconsistentShape | NoSuchTenant

  ghost predicate Initial(s: State) {
    s == State(Tables(map[], map[], {}), map[], {}, {}, map[])
  }

  // ---- effects -----------------------------------------------------------------------------

  function ValidateOverrideLimit(axis: string, limit: int): bool {
    axis == AXIS_OPEN_SESSIONS ==> limit != UNLIMITED && limit <= SESSIONS_HARD_CAP
  }

  /** applyChangeRequest: what approving the request writes, or why it cannot. */
  function ApplyChange(ts: Tables, item: Item): Result<Effect, ApplyError>
    requires item.Change?
  {
    var t := item.tenant;
    if item.kind == "tier_upgrade" && item.tier.Some? then
      if t in ts.tenants && ts.tenants[t].tier < item.tier.value then Ok(NewTier(t, item.tier.value)) else Err(NotAnUpgrade)
    else if item.kind == "feature" && item.feature.Some? then
      if t in ts.tenants then Ok(Grant(t, item.feature.value)) else Err(NoSuchTenant)
    else if item.kind == "quota_override" && item.feature.Some? && item.limit.Some? then
      if !ValidateOverrideLimit(item.feature.value, item.limit.value) then Err(AboveHardCap)
      else if t in ts.tenants then Ok(Override(t, item.feature.value, item.limit.value))
      else Err(NoSuchTenant)
    else Err(InconsistentShape)
  }

  /** The role rows an invitation confers on the user it resolves to. */
  function InviteEffect(item: Item, user: UserId): Effect
    requires item.Invitation?
  {
    Join(user, item.role == "platform_admin", item.place, if item.role == "tenant_member" then "member" else "admin")
  }

  function Publish(ts: Tables, x: Effect): Tables {
    match x
    case NewTier(t, n) => if t in ts.tenants then ts.(tenants := ts.tenants[t := ts.tenants[t].(tier := n)]) else ts
    case Grant(t, f) =>
      if t in ts.tenants then ts.(tenants := ts.tenants[t := ts.tenants[t].(features := ts.tenants[t].features + {f})]) else ts
    case Override(t, a, l) =>
      if t in ts.tenants then ts.(tenants := ts.tenants[t := ts.tenants[t].(overrides := ts.tenants[t].overrides[a := l])])
      else ts
    case Join(u, admin, place, role) =>
      Tables(ts.tenants,
             if place.Some? then ts.members[(u, place.value) := role] else ts.members,
             if admin then ts.admins + {u} else ts.admins)
    case Found(u, t, name) =>
      Tables(ts.tenants[t := Tenant(name, 0, {}, map[])], ts.members[(u, t) := "owner"], ts.admins)
  }

  // ---- locks -------------------------------------------------------------------------------

  predicate HoldsRow(s: State, c: CallId) {
    c in s.calls && (s.calls[c].Flipped? || s.calls[c].Ready?)
  }

  predicate RowFree(s: State, id: RowId) {
    forall c | c in s.calls && HoldsRow(s, c) :: s.calls[c].row != id
  }

  predicate HasEffect(x: Call) { x.Worked? || x.Ready? }

  /** No transaction in flight has written the tenant's tier. */
  predicate TierFree(s: State, t: TenantId) {
    forall c | c in s.calls && HasEffect(s.calls[c]) && s.calls[c].effect.NewTier? :: s.calls[c].effect.tenant != t
  }

  /** No tenant has the name, nor is one being created under it. */
  predicate NameFree(s: State, name: string) {
    && (forall t | t in s.tables.tenants :: s.tables.tenants[t].name != name)
    && (forall c | c in s.calls && HasEffect(s.calls[c]) && s.calls[c].effect.Found? :: s.calls[c].effect.name != name)
  }

  // ---- one step ----------------------------------------------------------------------------

  function SetStatus(s: State, id: RowId, status: Status): State
    requires id in s.rows
  {
    s.(rows := s.rows[id := s.rows[id].(status := status)])
  }

  function Goto(s: State, c: CallId, x: Call): State { s.(calls := s.calls[c := x]) }

  function Forget(s: State, c: CallId): State { s.(calls := s.calls - {c}) }

  predicate Closable(s: State, id: RowId) {
    && id in s.rows && RowFree(s, id)
    && match s.rows[id].item {
         case Change(_, _, _, _, _) => s.rows[id].status.Open?
         case Invitation(_, place, _, _) => s.rows[id].status.Open? && place.Some?
         case Signup(_, _) => s.rows[id].status.Waiting?
       }
  }

  predicate OpenFrom(s: State, inviter: UserId, id: RowId) {
    id in s.rows && s.rows[id].status.Open? && s.rows[id].item.Invitation? && s.rows[id].item.inviter == inviter
  }

  predicate Swept(s: State, now: int, id: RowId) {
    id in s.rows && s.rows[id].status.Open? && s.rows[id].item.Signup? && s.rows[id].item.codeExpires <= now
  }

  /** The lookup of an approval or accept finds its row. */
  predicate Acceptable(s: State, id: RowId, now: int) {
    && id in s.rows && s.rows[id].status.Open?
    && match s.rows[id].item {
         case Change(_, _, _, _, _) => true
         case Invitation(_, _, _, expires) => now < expires
         case Signup(_, expires) => now < expires
       }
  }

  function AfterWork(s: State, c: CallId, u: UserId, t: TenantId): State
    requires c in s.calls
  {
    if !s.calls[c].Looked? then s
    else
      var Looked(id, item) := s.calls[c];
      match item
      case Change(_, _, _, _, _) => s
      case Invitation(_, _, _, _) => Goto(s, c, Worked(id, item, InviteEffect(item, u)))
      case Signup(name, _) =>
        if t in s.founded || !NameFree(s, name) then s
        else Goto(s, c, Worked(id, item, Found(u, t, name))).(founded := s.founded + {t})
  }

  /** The guarded flip: no row to flip makes the call end. */
  function AfterFlip(s: State, c: CallId): State
    requires c in s.calls
  {
    var x := s.calls[c];
    var id := x.row;
    if HoldsRow(s, c) || !RowFree(s, id) || (x.Looked? && !x.item.Change?) then s
    else if id !in s.rows || !s.rows[id].status.Open? then Forget(s, c)
    else Goto(s, c, if x.Looked? then Flipped(id, x.item) else Ready(id, x.item, x.effect))
  }

  function AfterApply(s: State, c: CallId): State
    requires c in s.calls
  {
    var x := s.calls[c];
    if !x.Flipped? || !x.item.Change? || !TierFree(s, x.item.tenant) then s
    else
      match ApplyChange(s.tables, x.item)
      case Ok(effect) => Goto(s, c, Ready(x.row, x.item, effect))
      case Err(_) => Forget(s, c)
  }

  function AfterCommit(s: State, c: CallId): State
    requires c in s.calls
  {
    var x := s.calls[c];
    if !x.Ready? || x.row !in s.rows then s
    else SetStatus(Forget(s, c), x.row, Consumed).(tables := Publish(s.tables, x.effect))
  }

  function AfterRevokeAll(s: State, inviter: UserId): State {
    s.(rows := map id | id in s.rows :: if OpenFrom(s, inviter, id) then s.rows[id].(status := Closed) else s.rows[id])
  }

  function AfterSweep(s: State, now: int): State {
    s.(rows := map id | id in s.rows && !Swept(s, now, id) :: s.rows[id])
  }

  function Next(s: State, e: Event): State {
    match e
    case AddTenant(t, name, tier) =>
      if t in s.founded || !NameFree(s, name) then s
      else s.(tables := s.tables.(tenants := s.tables.tenants[t := Tenant(name, tier, {}, map[])]), founded := s.founded + {t})
    case SetTier(t, tier) =>
      if t !in s.tables.tenants || !TierFree(s, t) then s
      else s.(tables := s.tables.(tenants := s.tables.tenants[t := s.tables.tenants[t].(tier := tier)]))
    case Submit(id, item) =>
      if id in s.issued then s
      else s.(rows := s.rows[id := Row(item, if item.Signup? then Waiting else Open)], issued := s.issued + {id})
    case ApproveSignup(id, name, expires) =>
      if id in s.rows && s.rows[id].item.Signup? && s.rows[id].status.Waiting?
      then s.(rows := s.rows[id := Row(Signup(name, expires), Open)])
      else s
    case Close(id) => if Closable(s, id) then SetStatus(s, id, Closed) else s
    case RevokeAllBy(inviter) =>
      if forall id | id in s.rows :: OpenFrom(s, inviter, id) ==> RowFree(s, id) then AfterRevokeAll(s, inviter) else s
    case Sweep(now) =>
      if forall id | id in s.rows :: Swept(s, now, id) ==> RowFree(s, id) then AfterSweep(s, now) else s
    case LookUp(c, id, now) =>
      if c in s.calls || !Acceptable(s, id, now) then s else Goto(s, c, Looked(id, s.rows[id].item))
    case Work(c, u, t) => if c in s.calls then AfterWork(s, c, u, t) else s
    case Flip(c) => if c in s.calls then AfterFlip(s, c) else s
    case Apply(c) => if c in s.calls then AfterApply(s, c) else s
    case Commit(c) => if c in s.calls then AfterCommit(s, c) else s
    case Abort(c) => Forget(s, c)
  }

  function Run(s: State, es: seq<Event>): State {
    if es == [] then s else Next(Run(s, es[..|es| - 1]), es[|es| - 1])
  }

  // ---- what holds between any two statements -------------------------------------------------

  /** The effect is the one the row asks for. */
  ghost predicate Asked(item: Item, x: Effect) {
    match item
    case Change(t, kind, tier, feature, limit) =>
      || (kind == "tier_upgrade" && tier.Some? && x == NewTier(t, tier.value))
      || (kind == "feature" && feature.Some? && x == Grant(t, feature.value))
      || (kind == "quota_override" && feature.Some? && limit.Some? && x == Override(t, feature.value, limit.value)
          && ValidateOverrideLimit(feature.value, limit.value))
    case Invitation(_, _, _, _) => x.Join? && x == InviteEffect(item, x.user)
    case Signup(name, _) => x.Found? && x.name == name
  }

  ghost predicate CallInv(s: State, c: CallId)
    requires c in s.calls
  {
    var x := s.calls[c];
    && x.row in s.issued
    && (x.row in s.rows ==> s.rows[x.row].item == x.item && !s.rows[x.row].status.Waiting?)
    && (HoldsRow(s, c) ==> x.row in s.rows && s.rows[x.row].status.Open?)
    && (x.Flipped? ==> x.item.Change?)
    && (HasEffect(x) ==> Asked(x.item, x.effect) && EffectInv(s, x.effect))
    && (x.Worked? ==> !x.item.Change?)
  }

  /** What the locks taken by a write promise until it commits. */
  ghost predicate EffectInv(s: State, x: Effect) {
    match x
    case NewTier(t, n) => t in s.tables.tenants && s.tables.tenants[t].tier < n
    case Grant(t, _) => t in s.tables.tenants
    case Override(t, _, _) => t in s.tables.tenants
    case Join(_, _, _, _) => true
    case Found(_, t, name) =>
      t in s.founded && t !in s.tables.tenants && forall u | u in s.tables.tenants :: s.tables.tenants[u].name != name
  }

  /** Writes of two calls in flight that would wait for each other. */
  predicate Conflict(x: Effect, y: Effect) {
    || (x.NewTier? && y.NewTier? && x.tenant == y.tenant)
    || (x.Found? && y.Found? && (x.tenant == y.tenant || x.name == y.name))
  }

  ghost predicate Exclusive(s: State) {
    && (forall c, d | HoldsRow(s, c) && HoldsRow(s, d) && s.calls[c].row == s.calls[d].row :: c == d)
    && (forall c, d | c in s.calls && d in s.calls && HasEffect(s.calls[c]) && HasEffect(s.calls[d])
                      && Conflict(s.calls[c].effect, s.calls[d].effect) :: c == d)
  }

  ghost predicate TablesInv(s: State) {
    && s.rows.Keys <= s.issued && s.tables.tenants.Keys <= s.founded
    && (forall t, u | t in s.tables.tenants && u in s.tables.tenants
                      && s.tables.tenants[t].name == s.tables.tenants[u].name :: t == u)
    && (forall t | t in s.tables.tenants :: CapRespected(s.tables.tenants[t]))
  }

  ghost predicate CapRespected(t: Tenant) {
    AXIS_OPEN_SESSIONS in t.overrides ==> ValidateOverrideLimit(AXIS_OPEN_SESSIONS, t.overrides[AXIS_OPEN_SESSIONS])
  }

  ghost predicate Inv(s: State) {
    (forall c | c in s.calls :: CallInv(s, c)) && Exclusive(s) && TablesInv(s)
  }

  // ---- every step keeps it ---------------------------------------------------------------------

  lemma ForgetKeeps(s: State, c: CallId)
    requires Inv(s)
    ensures Inv(Forget(s, c))
  {
    var t := Forget(s, c);
    forall d | d in t.calls ensures CallInv(t, d) { assert CallInv(s, d) && HoldsRow(t, d) == HoldsRow(s, d); }
    assert forall d :: HoldsRow(t, d) ==> HoldsRow(s, d);
  }

  /** One call moves; nothing else changes but the sequences. */
  lemma GotoKeeps(s: State, t: State, c: CallId, x: Call)
    requires Inv(s) && t.calls == s.calls[c := x] && t.tables == s.tables && t.rows == s.rows && t.issued == s.issued
    requires s.founded <= t.founded
    requires CallInv(t, c)
    requires x.Flipped? || x.Ready? ==> (HoldsRow(s, c) && x.row == s.calls[c].row) || RowFree(s, x.row)
    requires HasEffect(x) ==> forall d | d in s.calls && d != c && HasEffect(s.calls[d]) ::
                                !Conflict(x.effect, s.calls[d].effect) && !Conflict(s.calls[d].effect, x.effect)
    ensures Inv(t)
  {
    forall d | d in t.calls ensures CallInv(t, d) {
      if d != c { assert CallInv(s, d) && HoldsRow(t, d) == HoldsRow(s, d); }
    }
    assert forall d :: d != c ==> HoldsRow(t, d) == HoldsRow(s, d);
  }

  /** Rows change, calls and tables do not. */
  lemma RowsKeep(s: State, t: State)
    requires Inv(s) && t.calls == s.calls && t.tables == s.tables && t.founded == s.founded && s.issued <= t.issued
    requires t.rows.Keys <= t.issued
    requires forall id | id in s.issued && id in t.rows :: id in s.rows
                && (!s.rows[id].status.Waiting? ==> t.rows[id].item == s.rows[id].item && !t.rows[id].status.Waiting?)
    requires forall id | id in s.rows && !RowFree(s, id) :: id in t.rows && t.rows[id] == s.rows[id]
    ensures Inv(t)
  {
    forall c | c in t.calls ensures CallInv(t, c) {
      assert CallInv(s, c) && HoldsRow(t, c) == HoldsRow(s, c);
      if s.calls[c].row in s.rows && HoldsRow(s, c) { assert !RowFree(s, s.calls[c].row); }
    }
    assert forall c :: HoldsRow(t, c) == HoldsRow(s, c);
  }

  lemma WorkKeeps(s: State, c: CallId, u: UserId, t: TenantId)
    requires Inv(s)
    ensures Inv(Next(s, Work(c, u, t)))
  {
    var r := Next(s, Work(c, u, t));
    if r != s {
      assert CallInv(s, c);
      GotoKeeps(s, r, c, r.calls[c]);
    }
  }

  lemma FlipKeeps(s: State, c: CallId)
    requires Inv(s)
    ensures Inv(Next(s, Flip(c)))
  {
    var r := Next(s, Flip(c));
    if c in r.calls && r != s {
      assert CallInv(s, c);
      GotoKeeps(s, r, c, r.calls[c]);
    } else if r != s {
      ForgetKeeps(s, c);
    }
  }

  lemma ApplyKeeps(s: State, c: CallId)
    requires Inv(s)
    ensures Inv(Next(s, Apply(c)))
  {
    var r := Next(s, Apply(c));
    if c in r.calls && r != s {
      assert CallInv(s, c);
      GotoKeeps(s, r, c, r.calls[c]);
    } else if r != s {
      ForgetKeeps(s, c);
    }
  }

  /** Publishing the effect of a call leaves what the others rely on. */
  lemma PublishKeepsEffect(s: State, t: State, x: Effect, y: Effect)
    requires EffectInv(s, x) && EffectInv(s, y) && !Conflict(x, y)
    requires t.tables == Publish(s.tables, x) && t.founded == s.founded
    ensures EffectInv(t, y)
  {
  }

  lemma CommitKeeps(s: State, c: CallId)
    requires Inv(s)
    ensures Inv(Next(s, Commit(c)))
  {
    var t := Next(s, Commit(c));
    if t != s {
      assert CallInv(s, c);
      forall d | d in t.calls ensures CallInv(t, d) {
        assert CallInv(s, d);
        assert HoldsRow(s, d) ==> s.calls[d].row != s.calls[c].row;
        assert HoldsRow(t, d) == HoldsRow(s, d);
        if HasEffect(s.calls[d]) { PublishKeepsEffect(s, t, s.calls[c].effect, s.calls[d].effect); }
      }
      assert forall d :: HoldsRow(t, d) ==> HoldsRow(s, d);
      PublishKeepsTables(s, t, c);
    }
  }

  lemma PublishKeepsTables(s: State, t: State, c: CallId)
    requires Inv(s) && c in s.calls && s.calls[c].Ready? && s.calls[c].row in s.rows && t == AfterCommit(s, c)
    ensures TablesInv(t)
  {
    assert CallInv(s, c);
  }

  lemma OtherTablesKeep(s: State, t: State, id: TenantId)
    requires Inv(s) && t.calls == s.calls && t.rows == s.rows && t.issued == s.issued && s.founded <= t.founded
    requires TablesInv(t)
    requires forall u | u != id :: (u in t.tables.tenants <==> u in s.tables.tenants)
                                   && (u in s.tables.tenants ==> t.tables.tenants[u] == s.tables.tenants[u])
    requires id in s.tables.tenants ==> TierFree(s, id) && id in t.tables.tenants && t.tables.tenants[id].name == s.tables.tenants[id].name
    requires id !in s.tables.tenants ==> id !in s.founded && id in t.tables.tenants && NameFree(s, t.tables.tenants[id].name)
    ensures Inv(t)
  {
    forall c | c in t.calls ensures CallInv(t, c) {
      assert CallInv(s, c) && HoldsRow(t, c) == HoldsRow(s, c);
    }
    assert forall c :: HoldsRow(t, c) == HoldsRow(s, c);
  }

  lemma StepKeeps(s: State, e: Event)
    requires Inv(s)
    ensures Inv(Next(s, e))
  {
    var t := Next(s, e);
    if t != s {
      match e
      case AddTenant(id, name, tier) => OtherTablesKeep(s, t, id);
      case SetTier(id, tier) => OtherTablesKeep(s, t, id);
      case Submit(id, item) => RowsKeep(s, t);
      case ApproveSignup(id, name, expires) => ApproveSignupKeeps(s, id, name, expires);
      case Close(id) => RowsKeep(s, t);
      case RevokeAllBy(inviter) => RowsKeep(s, t);
      case Sweep(now) => RowsKeep(s, t);
      case LookUp(c, id, now) => GotoKeeps(s, t, c, Looked(id, s.rows[id].item));
      case Work(c, u, id) => WorkKeeps(s, c, u, id);
      case Flip(c) => FlipKeeps(s, c);
      case Apply(c) => ApplyKeeps(s, c);
      case Commit(c) => CommitKeeps(s, c);
      case Abort(c) => ForgetKeeps(s, c);
    }
  }

  /** No call has looked at a signup that waits for its review. */
  lemma ApproveSignupKeeps(s: State, id: RowId, name: string, expires: int)
    requires Inv(s)
    ensures Inv(Next(s, ApproveSignup(id, name, expires)))
  {
    var t := Next(s, ApproveSignup(id, name, expires));
    forall c | c in t.calls ensures CallInv(t, c) { assert CallInv(s, c) && HoldsRow(t, c) == HoldsRow(s, c); }
    assert forall c :: HoldsRow(t, c) == HoldsRow(s, c);
  }

  lemma {:induction false} RunKeeps(s: State, es: seq<Event>)
    requires Inv(s)
    ensures Inv(Run(s, es))
  {
    if es != [] {
      RunKeeps(s, es[..|es| - 1]);
      StepKeeps(Run(s, es[..|es| - 1]), es[|es| - 1]);
    }
  }

  // ---- consumed once, with its effect ------------------------------------------------------------

  predicate IsConsumed(s: State, id: RowId) { id in s.rows && s.rows[id].status.Consumed? }

  predicate Flips(s: State, e: Event, id: RowId) { !IsConsumed(s, id) && IsConsumed(Next(s, e), id) }

  /** Steps of a run that consume the row. */
  function Consumptions(s: State, es: seq<Event>, id: RowId): nat {
    if es == [] then 0
    else Consumptions(s, es[..|es| - 1], id) + if Flips(Run(s, es[..|es| - 1]), es[|es| - 1], id) then 1 else 0
  }

  lemma ConsumedStays(s: State, e: Event, id: RowId)
    requires Inv(s) && IsConsumed(s, id)
    ensures IsConsumed(Next(s, e), id)
  {
    assert e.Flip? && e.call in s.calls ==> CallInv(s, e.call);
  }

  /** Disabling a user revokes exactly the open invitations the user has sent. */
  lemma RevokesExactly(s: State, inviter: UserId)
    requires forall id | id in s.rows && s.rows[id].item.Invitation? && s.rows[id].item.inviter == inviter :: RowFree(s, id)
    ensures var t := Next(s, RevokeAllBy(inviter));
            && t.rows.Keys == s.rows.Keys && t.tables == s.tables && t.calls == s.calls
            && forall id | id in s.rows ::
                 t.rows[id] == if s.rows[id].item.Invitation? && s.rows[id].item.inviter == inviter && s.rows[id].status == Open
                               then Row(s.rows[id].item, Closed) else s.rows[id]
  {
  }

  /** The sweep deletes exactly the approved signups whose code has expired. */
  lemma SweepsExactly(s: State, now: int)
    requires forall id | id in s.rows && s.rows[id].item.Signup? :: RowFree(s, id)
    ensures var t := Next(s, Sweep(now));
            && t.tables == s.tables && t.calls == s.calls && t.rows.Keys <= s.rows.Keys
            && forall id | id in s.rows ::
                 && (id !in t.rows <==> s.rows[id].item.Signup? && s.rows[id].status == Open && s.rows[id].item.codeExpires <= now)
                 && (id in t.rows ==> t.rows[id] == s.rows[id])
  {
  }

  /** How a row can end without being consumed, whatever else runs: it vanishes
      only as an approved signup swept after its expiry, and it is closed only by
      its own denial or revocation or by the one of all its inviter's invitations. */
  lemma EndsOnlyBy(s: State, e: Event, id: RowId)
    requires id in s.rows
    ensures id !in Next(s, e).rows ==>
              e.Sweep? && s.rows[id].item.Signup? && s.rows[id].status == Open && s.rows[id].item.codeExpires <= e.now
    ensures id in Next(s, e).rows && Next(s, e).rows[id].status == Closed && s.rows[id].status != Closed ==>
              e == Close(id) || (s.rows[id].item.Invitation? && e == RevokeAllBy(s.rows[id].item.inviter))
  {
  }

  /** The row was denied or revoked, or swept away. */
  predicate IsClosed(s: State, id: RowId) {
    id in s.issued && (id in s.rows ==> s.rows[id].status.Closed?)
  }

  lemma ClosedStays(s: State, e: Event, id: RowId)
    requires Inv(s) && IsClosed(s, id)
    ensures IsClosed(Next(s, e), id)
  {
    if e.Commit? && e.call in s.calls { assert CallInv(s, e.call); }
  }

  /** A denied, revoked or swept row is never reopened or consumed, whatever
      was in flight when it was closed. */
  lemma {:induction false} ClosedForGood(s: State, es: seq<Event>, id: RowId)
    requires Inv(s) && IsClosed(s, id)
    ensures IsClosed(Run(s, es), id) && !IsConsumed(Run(s, es), id) && Consumptions(s, es, id) == 0
  {
    if es != [] {
      var init := es[..|es| - 1];
      ClosedForGood(s, init, id);
      RunKeeps(s, init);
      ClosedStays(Run(s, init), es[|es| - 1], id);
    }
  }

  /** Each change request, invitation and signup approval is consumed at most
      once, and exactly once if it ends consumed; one that ends denied, revoked
      or swept was never consumed. */
  lemma {:induction false} ConsumedOnce(s: State, es: seq<Event>, id: RowId)
    requires Initial(s)
    ensures Consumptions(s, es, id) == if IsConsumed(Run(s, es), id) then 1 else 0
  {
    if es != [] {
      var init := es[..|es| - 1];
      ConsumedOnce(s, init, id);
      RunKeeps(s, init);
      if IsConsumed(Run(s, init), id) { ConsumedStays(Run(s, init), es[|es| - 1], id); }
    }
  }

  /** A row flips exactly at the commit of a call that holds it; that same step
      publishes what the row asks for, and no other step of these transactions
      changes the published tables. */
  lemma FlipsWithEffect(s: State, e: Event, id: RowId)
    requires Inv(s)
    ensures var t := Next(s, e);
            && (Flips(s, e, id) <==> e.Commit? && e.call in s.calls && s.calls[e.call].Ready? && s.calls[e.call].row == id)
            && (Flips(s, e, id) ==> (
                  && s.rows[id].status.Open? && t.rows == s.rows[id := Row(s.rows[id].item, Consumed)]
                  && Asked(s.rows[id].item, s.calls[e.call].effect)
                  && t.tables == Publish(s.tables, s.calls[e.call].effect)))
            && (t.tables != s.tables ==> e.AddTenant? || e.SetTier? || exists r :: Flips(s, e, r))
  {
    if e.Commit? && e.call in s.calls {
      assert CallInv(s, e.call);
      if s.calls[e.call].Ready? { assert Flips(s, e, s.calls[e.call].row); }
    }
    var t := Next(s, e);
    assert !e.Commit? ==> forall r :: IsConsumed(t, r) ==> IsConsumed(s, r);
  }

  /** The commit that consumes a row changes what the row names and nothing else:
      one column of one tenant, the roles of one user, or one new tenant. */
  lemma ConsumesOnly(s: State, e: Event, id: RowId)
    requires Inv(s) && Flips(s, e, id)
    ensures e.Commit? && e.call in s.calls && HasEffect(s.calls[e.call])
    ensures var item, x := s.rows[id].item, s.calls[e.call].effect;
            match item
            case Change(t, kind, tier, feature, limit) => t in s.tables.tenants && OneColumn(s.tables, Next(s, e).tables, item)
            case Invitation(_, place, role, _) => x.Join? && Roles(s.tables, Next(s, e).tables, x.user, place, role)
            case Signup(name, _) => x.Found? && Founded(s.tables, Next(s, e).tables, x.user, x.tenant, name)
  {
    FlipsWithEffect(s, e, id);
    assert CallInv(s, e.call);
  }

  /** Only the requested column of the tenant changes. */
  ghost predicate OneColumn(a: Tables, b: Tables, item: Item)
    requires item.Change? && item.tenant in a.tenants
  {
    var t := item.tenant;
    var was := a.tenants[t];
    && b.members == a.members && b.admins == a.admins && b.tenants.Keys == a.tenants.Keys
    && (forall u | u in a.tenants && u != t :: b.tenants[u] == a.tenants[u])
    && b.tenants[t].name == was.name
    && (if item.kind == "tier_upgrade" then item.tier == Some(b.tenants[t].tier) else b.tenants[t].tier == was.tier)
    && (if item.kind == "feature" then item.feature.Some? && b.tenants[t].features == was.features + {item.feature.value}
        else b.tenants[t].features == was.features)
    && (if item.kind == "quota_override"
        then item.feature.Some? && item.limit.Some? && b.tenants[t].overrides == was.overrides[item.feature.value := item.limit.value]
        else b.tenants[t].overrides == was.overrides)
  }

  /** The user gets the membership the invitation is for, if it is for a tenant,
      and becomes a platform admin only by an invitation to that role. */
  ghost predicate Roles(a: Tables, b: Tables, user: UserId, place: Option<TenantId>, role: string) {
    && b.tenants == a.tenants
    && (forall u :: u in b.admins <==> u in a.admins || (u == user && role == "platform_admin"))
    && (place.None? ==> b.members == a.members)
    && (place.Some? ==> (
          && (user, place.value) in b.members
          && (b.members[(user, place.value)] == "member" <==> role == "tenant_member")
          && (b.members[(user, place.value)] == "admin" <==> role != "tenant_member")
          && (forall k | k != (user, place.value) ::
                (k in b.members <==> k in a.members) && (k in a.members ==> b.members[k] == a.members[k]))))
  }

  /** The user owns a new tenant of the approved name, which starts with nothing. */
  ghost predicate Founded(a: Tables, b: Tables, user: UserId, t: TenantId, name: string) {
    && t !in a.tenants && b.admins == a.admins && b.tenants.Keys == a.tenants.Keys + {t}
    && (forall u | u in a.tenants :: b.tenants[u] == a.tenants[u])
    && b.tenants[t].name == name && b.tenants[t].tier == 0 && b.tenants[t].features == {} && b.tenants[t].overrides == map[]
    && (user, t) in b.members && b.members[(user, t)] == "owner"
    && (forall k | k != (user, t) :: (k in b.members <==> k in a.members) && (k in a.members ==> b.members[k] == a.members[k]))
  }

  lemma AdminStep(s: State, e: Event, u: UserId) returns (id: RowId)
    requires Inv(s) && u !in s.tables.admins && u in Next(s, e).tables.admins
    ensures Flips(s, e, id) && s.rows[id].item.Invitation? && s.rows[id].item.role == "platform_admin"
    ensures e.Commit? && e.call in s.calls && HasEffect(s.calls[e.call]) && s.calls[e.call].effect == InviteEffect(s.rows[id].item, u)
  {
    assert CallInv(s, e.call);
    id := s.calls[e.call].row;
    ConsumesOnly(s, e, id);
  }

  /** Every platform admin at the end of a run got there by the acceptance of an
      invitation to that very role. */
  lemma {:induction false} AdminsByInvitation(s: State, es: seq<Event>, u: UserId) returns (i: nat, id: RowId)
    requires Initial(s) && u in Run(s, es).tables.admins
    ensures i < |es| && Flips(Run(s, es[..i]), es[i], id)
    ensures var t := Run(s, es[..i]);
            && t.rows[id].item.Invitation? && t.rows[id].item.role == "platform_admin"
            && es[i].Commit? && es[i].call in t.calls && HasEffect(t.calls[es[i].call])
            && t.calls[es[i].call].effect == InviteEffect(t.rows[id].item, u)
  {
    var k := |es| - 1;
    RunKeeps(s, es[..k]);
    if u in Run(s, es[..k]).tables.admins {
      i, id := AdminsByInvitation(s, es[..k], u);
      assert es[..k][..i] == es[..i];
    } else {
      i := k;
      id := AdminStep(Run(s, es[..k]), es[k], u);
    }
  }

  /** Why a flipped change request is refused, in terms of the request and the tenant. */
  ghost predicate Reason(ts: Tables, item: Item, error: ApplyError)
    requires item.Change?
  {
    var upgrade := item.kind == "tier_upgrade" && item.tier.Some?;
    var feature := item.kind == "feature" && item.feature.Some?;
    var override := item.kind == "quota_override" && item.feature.Some? && item.limit.Some?;
    match error
    case NotAnUpgrade => upgrade && (item.tenant in ts.tenants ==> item.tier.value <= ts.tenants[item.tenant].tier)
    case AboveHardCap => override && item.feature.value == "open_sessions" && (item.limit.value == -1 || item.limit.value > 10_000)
    case NoSuchTenant => (feature || override) && item.tenant !in ts.tenants
    case InconsistentShape => !upgrade && !feature && !override
  }

  /** A flipped change request is refused exactly for a reason, and for the one given. */
  lemma RefusedForReason(ts: Tables, item: Item)
    requires item.Change?
    ensures ApplyChange(ts, item).Err? ==> Reason(ts, item, ApplyChange(ts, item).error)
    ensures ApplyChange(ts, item).Ok? ==> forall error :: !Reason(ts, item, error)
  {
  }

  /** No approval lowers a tier: only the direct setting of a platform admin
      can, and approving a tier upgrade raises it to the requested one. */
  lemma ApprovalsNeverLower(s: State, e: Event, t: TenantId)
    requires Inv(s) && !e.SetTier? && t in s.tables.tenants
    ensures t in Next(s, e).tables.tenants && s.tables.tenants[t].tier <= Next(s, e).tables.tenants[t].tier
    ensures forall id | Flips(s, e, id) && s.rows[id].item.Change? && s.rows[id].item.kind == "tier_upgrade"
                        && s.rows[id].item.tenant == t ::
              s.rows[id].item.tier == Some(Next(s, e).tables.tenants[t].tier)
              && s.tables.tenants[t].tier < Next(s, e).tables.tenants[t].tier
  {
    if e.Commit? && e.call in s.calls { assert CallInv(s, e.call); }
    forall id | Flips(s, e, id) ensures e.Commit? && e.call in s.calls && s.calls[e.call].row == id { FlipsWithEffect(s, e, id); }
  }

  /** Over any stretch of a run in which no admin sets the tier directly, it
      never falls. */
  lemma {:induction false} TiersOnlyRise(s: State, es: seq<Event>, t: TenantId)
    requires Inv(s) && t in s.tables.tenants && forall i | 0 <= i < |es| :: !es[i].SetTier?
    ensures t in Run(s, es).tables.tenants && s.tables.tenants[t].tier <= Run(s, es).tables.tenants[t].tier
  {
    if es != [] {
      var init := es[..|es| - 1];
      TiersOnlyRise(s, init, t);
      RunKeeps(s, init);
      ApprovalsNeverLower(Run(s, init), es[|es| - 1], t);
    }
  }

  /** Over a whole run: tenant names stay unique, and no approved override of
      the open-sessions axis is unlimited or above the hard cap. */
  lemma NamesAndCaps(s: State, es: seq<Event>, a: TenantId, b: TenantId)
    requires Initial(s) && a in Run(s, es).tables.tenants && b in Run(s, es).tables.tenants
    ensures var ts := Run(s, es).tables.tenants;
            && (ts[a].name == ts[b].name ==> a == b)
            && (AXIS_OPEN_SESSIONS in ts[a].overrides ==>
                  ts[a].overrides[AXIS_OPEN_SESSIONS] != UNLIMITED && ts[a].overrides[AXIS_OPEN_SESSIONS] <= SESSIONS_HARD_CAP)
  {
    RunKeeps(s, es);
    assert CapRespected(Run(s, es).tables.tenants[a]);
  }

  lemma RunSnoc(s: State, es: seq<Event>, e: Event)
    ensures Run(s, es + [e]) == Next(Run(s, es), e)
  {
    assert (es + [e])[..|es|] == es;
  }
}
