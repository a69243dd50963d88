/** The handlers over the guarded rows. Each runs the statements of its
    transactions one by one, with the statements of any other request between
    them. */
module RequestDesk {
  import opened Wrappers
  import opened GuardedRequests

  datatype ApproveError = AlreadyHandled | Refused(error: ApplyError) | Failed

  datatype AcceptError = NotFound | Expired | NameTaken | Rejected

  predicate About(e: Event, c: CallId) {
    (e.LookUp? || e.Work? || e.Flip? || e.Apply? || e.Commit? || e.Abort?) && e.call == c
  }

  /** What the call c can rely on while other requests run. */
  ghost predicate SameCall(s: State, t: State, c: CallId) {
    && (c in t.calls <==> c in s.calls) && (c in s.calls && c in t.calls ==> t.calls[c] == s.calls[c])
    && (c in s.calls && HoldsRow(s, c) && s.calls[c].row in s.rows ==>
          s.calls[c].row in t.rows && t.rows[s.calls[c].row] == s.rows[s.calls[c].row])
  }

  lemma OthersLeaveCall(s: State, e: Event, c: CallId)
    requires Inv(s) && !About(e, c)
    ensures SameCall(s, Next(s, e), c)
  {
    if c in s.calls { assert CallInv(s, c); }
    if e.Commit? && e.call in s.calls { assert CallInv(s, e.call); }
    if c in s.calls && HoldsRow(s, c) { assert !RowFree(s, s.calls[c].row); }
  }

  lemma FlipStep(s: State, c: CallId)
    requires c in s.calls && RowFree(s, s.calls[c].row)
    requires if s.calls[c].Looked? then s.calls[c].item.Change? else s.calls[c].Worked?
    ensures var id, t := s.calls[c].row, Next(s, Flip(c));
            if id in s.rows && s.rows[id].status.Open?
            then c in t.calls && t.calls[c] == AfterFlipping(s.calls[c])
            else c !in t.calls
  {
  }

  lemma CommitStep(s: State, c: CallId)
    requires Inv(s) && c in s.calls && s.calls[c].Ready?
    ensures var x, t := s.calls[c], Next(s, Commit(c));
            && c !in t.calls && IsConsumed(t, x.row) && t.rows[x.row].item == x.item && Shows(t.tables, x.effect)
  {
    assert CallInv(s, c);
  }

  lemma ApplyStep(s: State, c: CallId)
    requires c in s.calls && s.calls[c].Flipped? && s.calls[c].item.Change? && TierFree(s, s.calls[c].item.tenant)
    ensures var x, t := s.calls[c], Next(s, Apply(c));
            if ApplyChange(s.tables, x.item).Ok?
            then c in t.calls && t.calls[c] == Ready(x.row, x.item, ApplyChange(s.tables, x.item).value)
                 && Asked(x.item, t.calls[c].effect)
            else c !in t.calls
  {
  }

  /** A review can still close the row: a pending change request, an open
      invitation to a tenant, a signup that waits. */
  ghost predicate Reviewable(row: Row) {
    || (row.item.Change? && row.status == Open)
    || (row.item.Invitation? && row.item.place.Some? && row.status == Open)
    || (row.item.Signup? && row.status == Waiting)
  }

  /** Why a flip fails: the row is not open any more, or another call holds it. */
  ghost predicate NotFlipped(s: State, id: RowId, error: ApproveError) {
    match error
    case AlreadyHandled => id !in s.rows || s.rows[id].status != Open
    case Failed => !RowFree(s, id)
    case Refused(_) => false
  }

  /** Why an approval fails; a refused request is pending as before. */
  ghost predicate NotApproved(s: State, id: RowId, error: ApproveError) {
    match error
    case AlreadyHandled => id !in s.rows || s.rows[id].status != Open || !s.rows[id].item.Change?
    case Failed => !RowFree(s, id) || (id in s.rows && s.rows[id].item.Change? && !TierFree(s, s.rows[id].item.tenant))
    case Refused(e) => id in s.rows && s.rows[id].status == Open && s.rows[id].item.Change? && Reason(s.tables, s.rows[id].item, e)
  }

  /** Why an accept fails, for a person whom the password or the provider proved. */
  ghost predicate NotAccepted(s: State, id: RowId, now: int, tenant: TenantId, error: AcceptError) {
    match error
    case NotFound => id !in s.rows || s.rows[id].status != Open || s.rows[id].item.Change?
    case Expired =>
      id !in s.rows || s.rows[id].status != Open || (!s.rows[id].item.Change? && !NotExpired(s.rows[id].item, now))
    case NameTaken =>
      tenant in s.founded || (id in s.rows ==> s.rows[id].item.Signup? && !NameFree(s, s.rows[id].item.name))
    case Rejected => !RowFree(s, id)
  }

  lemma HeldAfter(s: State, c: CallId, id: RowId)
    requires !RowFree(s, id) && !HoldsRow(s, c)
    ensures !RowFree(Forget(s, c), id)
  {
    var d :| d in s.calls && HoldsRow(s, d) && s.calls[d].row == id;
    assert HoldsRow(Forget(s, c), d) && Forget(s, c).calls[d].row == id;
  }

  lemma TierHeldAfter(s: State, c: CallId, t: TenantId)
    requires !TierFree(s, t) && c in s.calls && !HasEffect(s.calls[c])
    ensures !TierFree(Forget(s, c), t)
  {
    var d :| d in s.calls && HasEffect(s.calls[d]) && s.calls[d].effect.NewTier? && s.calls[d].effect.tenant == t;
    assert d in Forget(s, c).calls && Forget(s, c).calls[d] == s.calls[d];
  }

  lemma WorkStep(s: State, c: CallId, user: UserId, tenant: TenantId)
    requires c in s.calls && s.calls[c].Looked? && !s.calls[c].item.Change?
    ensures var x, t := s.calls[c], Next(s, Work(c, user, tenant));
            && c in t.calls && t.rows == s.rows
            && (t.calls[c].Looked? ==> (
                  && t == s && x.item.Signup? && (tenant in s.founded || !NameFree(s, x.item.name))
                  && (NameFree(s, x.item.name) <==> NameFree(Forget(s, c), x.item.name))))
            && (!t.calls[c].Looked? ==> (
                  && t.calls[c].Worked? && t.calls[c].row == x.row && t.calls[c].item == x.item
                  && t.calls[c].effect == if x.item.Invitation? then InviteEffect(x.item, user) else Found(user, tenant, x.item.name)))
  {
    var u := Forget(s, c);
    assert forall d | d in s.calls && HasEffect(s.calls[d]) :: d in u.calls && u.calls[d] == s.calls[d];
  }

  class Desk {
    var world: State
    ghost const origin: State
    ghost var history: seq<Event>

    ghost predicate Valid()
      reads this
    {
      Initial(origin) && world == Run(origin, history) && Inv(world)
    }

    constructor ()
      ensures Valid() && history == []
    {
      var empty := State(Tables(map[], map[], {}), map[], {}, {}, map[]);
      world, origin, history := empty, empty, [];
      new;
      RunKeeps(origin, []);
    }

    method Do(e: Event)
      requires Valid()
      modifies this
      ensures Valid() && world == Next(old(world), e) && history == old(history) + [e]
    {
      RunSnoc(origin, history, e);
      StepKeeps(world, e);
      world := Next(world, e);
      history := history + [e];
    }

    /** Any statements of other requests, between two of the call c. */
    method Others(c: CallId)
      requires Valid()
      modifies this
      ensures Valid() && SameCall(old(world), world, c)
      ensures Commit(c) in history <==> Commit(c) in old(history)
    {
      var n: nat := *;
      while n > 0
        invariant Valid() && SameCall(old(world), world, c)
        invariant Commit(c) in history <==> Commit(c) in old(history)
      {
        var e: Event := *;
        if !About(e, c) {
          OthersLeaveCall(world, e, c);
          Do(e);
        }
        n := n - 1;
      }
    }

    /** Rolls the call back. */
    method GiveUp(c: CallId)
      requires Valid()
      modifies this
      ensures Valid() && world == Forget(old(world), c) && history == old(history) + [Abort(c)]
    {
      Do(Abort(c));
    }

    /** Commits a call that has flipped its row and knows its effect. */
    method CommitReady(c: CallId)
      requires Valid() && c in world.calls && world.calls[c].Ready?
      modifies this
      ensures Valid() && c !in world.calls && Commit(c) in history
      ensures var x := old(world).calls[c];
              IsConsumed(world, x.row) && world.rows[x.row].item == x.item && Shows(world.tables, x.effect)
    {
      Others(c);
      CommitStep(world, c);
      Do(Commit(c));
    }

    /** approveTenantSignupHandler: the approved name and the expiry of the code. */
    method ApproveSignupRequest(id: RowId, name: string, expires: int) returns (n: nat)
      requires Valid()
      modifies this
      ensures Valid() && n <= 1
      ensures n == 1 <==> id in old(world).rows && old(world).rows[id].item.Signup? && old(world).rows[id].status == Waiting
      ensures world.rows == if n == 1 then old(world).rows[id := Row(Signup(name, expires), Open)] else old(world).rows
      ensures world.tables == old(world).tables && world.calls == old(world).calls
    {
      n := if id in world.rows && world.rows[id].item.Signup? && world.rows[id].status.Waiting? then 1 else 0;
      Do(ApproveSignup(id, name, expires));
    }

    /** approveChangeRequestHandler. */
    method ApproveChangeRequest(c: CallId, id: RowId) returns (r: Result<(), ApproveError>)
      requires Valid() && c !in world.calls
      modifies this
      ensures Valid() && c !in world.calls
      ensures r.Err? ==> (Commit(c) in history <==> Commit(c) in old(history))
      ensures r.Ok? ==> IsConsumed(world, id) && world.rows[id].item.Change? && Applied(world.tables, world.rows[id].item)
      ensures r.Err? ==> NotApproved(world, id, r.error)
    {
      Others(c);
      if id !in world.rows || !world.rows[id].status.Open? || !world.rows[id].item.Change? { return Err(AlreadyHandled); }
      Do(LookUp(c, id, 0));
      r := FlipRow(c);
      if r.Ok? { r := ApplyAndCommit(c); }
    }

    /** The guarded flip, which takes the row lock. */
    method FlipRow(c: CallId) returns (r: Result<(), ApproveError>)
      requires Valid() && c in world.calls
      requires if world.calls[c].Looked? then world.calls[c].item.Change? else world.calls[c].Worked?
      modifies this
      ensures Valid() && (c in world.calls <==> r.Ok?)
      ensures Commit(c) in history <==> Commit(c) in old(history)
      ensures r.Ok? ==> world.calls[c] == AfterFlipping(old(world).calls[c])
      ensures r.Err? ==> NotFlipped(world, old(world).calls[c].row, r.error)
    {
      Others(c);
      var id := world.calls[c].row;
      if !RowFree(world, id) {
        HeldAfter(world, c, id);
        GiveUp(c);
        return Err(Failed);
      }
      r := FlipFree(c);
    }

    method FlipFree(c: CallId) returns (r: Result<(), ApproveError>)
      requires Valid() && c in world.calls && RowFree(world, world.calls[c].row)
      requires if world.calls[c].Looked? then world.calls[c].item.Change? else world.calls[c].Worked?
      modifies this
      ensures Valid() && (c in world.calls <==> r.Ok?)
      ensures history == old(history) + [Flip(c)]
      ensures r.Ok? ==> world.calls[c] == AfterFlipping(old(world).calls[c])
      ensures r.Err? ==> r == Err(AlreadyHandled) && NotFlipped(world, old(world).calls[c].row, r.error)
    {
      var id := world.calls[c].row;
      var open := id in world.rows && world.rows[id].status.Open?;
      FlipStep(world, c);
      Do(Flip(c));
      r := if open then Ok(()) else Err(AlreadyHandled);
    }

    method ApplyAndCommit(c: CallId) returns (r: Result<(), ApproveError>)
      requires Valid() && c in world.calls && world.calls[c].Flipped? && world.calls[c].item.Change?
      modifies this
      ensures Valid() && c !in world.calls
      ensures r.Err? ==> (Commit(c) in history <==> Commit(c) in old(history))
      ensures r.Ok? ==> (
                var x := old(world).calls[c];
                IsConsumed(world, x.row) && world.rows[x.row].item == x.item && Applied(world.tables, x.item))
      ensures r.Err? ==> NotApproved(world, old(world).calls[c].row, r.error)
    {
      r := ApplyFlipped(c);
      if r.Ok? { CommitReady(c); }
    }

    /** applyChangeRequest: an error rolls the flip back. */
    method ApplyFlipped(c: CallId) returns (r: Result<(), ApproveError>)
      requires Valid() && c in world.calls && world.calls[c].Flipped? && world.calls[c].item.Change?
      modifies this
      ensures Valid() && (c in world.calls <==> r.Ok?)
      ensures Commit(c) in history <==> Commit(c) in old(history)
      ensures r.Ok? ==> (
                var x, y := old(world).calls[c], world.calls[c];
                y.Ready? && y.row == x.row && y.item == x.item && Asked(x.item, y.effect))
      ensures r.Err? ==> NotApproved(world, old(world).calls[c].row, r.error)
    {
      Others(c);
      assert CallInv(world, c);
      var item := world.calls[c].item;
      if !TierFree(world, item.tenant) {
        TierHeldAfter(world, c, item.tenant);
        GiveUp(c);
        return Err(Failed);
      }
      r := ApplyFree(c);
    }

    method ApplyFree(c: CallId) returns (r: Result<(), ApproveError>)
      requires Valid() && c in world.calls && world.calls[c].Flipped? && world.calls[c].item.Change?
      requires TierFree(world, world.calls[c].item.tenant)
      modifies this
      ensures Valid() && (c in world.calls <==> r.Ok?)
      ensures history == old(history) + [Apply(c)]
      ensures world.rows == old(world).rows && world.tables == old(world).tables
      ensures r.Err? ==> r.error.Refused? && Reason(old(world).tables, old(world).calls[c].item, r.error.error)
      ensures r.Ok? ==> forall error :: !Reason(old(world).tables, old(world).calls[c].item, error)
      ensures r.Ok? ==> (
                var x, y := old(world).calls[c], world.calls[c];
                y.Ready? && y.row == x.row && y.item == x.item && Asked(x.item, y.effect))
    {
      var verdict := ApplyChange(world.tables, world.calls[c].item);
      ApplyStep(world, c);
      RefusedForReason(world.tables, world.calls[c].item);
      Do(Apply(c));
      r := if verdict.Err? then Err(Refused(verdict.error)) else Ok(());
    }

    /** denyChangeRequestHandler, denyTenantSignupHandler and revokeInvite: one
        guarded statement. A row it affects is closed for good, even against an
        approval or accept that has already looked it up; nothing else changes. */
    method CloseRow(id: RowId) returns (n: nat)
      requires Valid()
      modifies this
      ensures Valid() && n <= 1
      ensures n == 1 <==> id in old(world).rows && RowFree(old(world), id) && Reviewable(old(world).rows[id])
      ensures n == 1 ==> forall es :: !IsConsumed(Run(world, es), id) && Consumptions(world, es, id) == 0
      ensures n == 1 ==> world.rows == old(world).rows[id := Row(old(world).rows[id].item, Closed)]
      ensures n == 0 ==> world.rows == old(world).rows
      ensures world.tables == old(world).tables && world.calls == old(world).calls
    {
      n := if Closable(world, id) then 1 else 0;
      Do(Close(id));
      if n == 1 {
        forall es ensures !IsConsumed(Run(world, es), id) && Consumptions(world, es, id) == 0 {
          ClosedForGood(world, es, id);
        }
      }
    }

    /** acceptInvite and acceptTenantSignup: look up, work, flip last. `resolved`
        tells whether the password or the provider identity proved the user. */
    method AcceptRow(c: CallId, id: RowId, now: int, user: UserId, tenant: TenantId, resolved: bool)
      returns (r: Result<(), AcceptError>)
      requires Valid() && c !in world.calls
      modifies this
      ensures Valid() && c !in world.calls
      ensures r.Err? ==> (Commit(c) in history <==> Commit(c) in old(history))
      ensures r.Ok? ==> resolved && IsConsumed(world, id) && Granted(world.tables, world.rows[id].item, user)
      ensures r.Ok? ==> !world.rows[id].item.Change? && NotExpired(world.rows[id].item, now)
      ensures r.Err? ==> NotAccepted(world, id, now, tenant, r.error) || (r == Err(Rejected) && !resolved)
    {
      Others(c);
      r := LookUpRow(c, id, now);
      if r.Ok? && !resolved { GiveUp(c); r := Err(Rejected); }
      if r.Ok? { r := WorkAndFlip(c, user, tenant, now); }
    }

    method LookUpRow(c: CallId, id: RowId, now: int) returns (r: Result<(), AcceptError>)
      requires Valid() && c !in world.calls
      modifies this
      ensures Valid() && (c in world.calls <==> r.Ok?)
      ensures Commit(c) in history <==> Commit(c) in old(history)
      ensures r.Ok? ==> world.calls[c].Looked? && world.calls[c].row == id && !world.calls[c].item.Change?
                        && NotExpired(world.calls[c].item, now)
      ensures r.Err? ==> r != Err(NameTaken) && r != Err(Rejected) && NotAccepted(world, id, now, 0, r.error)
      ensures r == Err(Expired) ==> id in world.rows && !world.rows[id].item.Change? && !NotExpired(world.rows[id].item, now)
    {
      if id !in world.rows || !world.rows[id].status.Open? || world.rows[id].item.Change? { return Err(NotFound); }
      if !Acceptable(world, id, now) { return Err(Expired); }
      Do(LookUp(c, id, now));
      r := Ok(());
    }

    method WorkAndFlip(c: CallId, user: UserId, tenant: TenantId, ghost now: int) returns (r: Result<(), AcceptError>)
      requires Valid() && c in world.calls && world.calls[c].Looked? && !world.calls[c].item.Change?
      modifies this
      ensures Valid() && c !in world.calls
      ensures r.Err? ==> (Commit(c) in history <==> Commit(c) in old(history))
      ensures r.Ok? ==> (
                var x := old(world).calls[c];
                IsConsumed(world, x.row) && world.rows[x.row].item == x.item && Granted(world.tables, x.item, user))
      ensures r.Err? ==> NotAccepted(world, old(world).calls[c].row, now, tenant, r.error)
    {
      Others(c);
      r := DoWork(c, user, tenant);
      if r.Ok? { r := FlipAndCommit(c, now, tenant); }
    }

    method DoWork(c: CallId, user: UserId, tenant: TenantId) returns (r: Result<(), AcceptError>)
      requires Valid() && c in world.calls && world.calls[c].Looked? && !world.calls[c].item.Change?
      modifies this
      ensures Valid() && (c in world.calls <==> r.Ok?)
      ensures Commit(c) in history <==> Commit(c) in old(history)
      ensures r.Ok? ==> (
                var x, y := old(world).calls[c], world.calls[c];
                && y.Worked? && y.row == x.row && y.item == x.item
                && (match x.item
                    case Change(_, _, _, _, _) => false
                    case Invitation(_, _, _, _) => y.effect == InviteEffect(x.item, user)
                    case Signup(name, _) => y.effect == Found(user, tenant, name)))
      ensures r.Err? ==> (
                && r == Err(NameTaken) && old(world).calls[c].item.Signup?
                && (tenant in world.founded || !NameFree(world, old(world).calls[c].item.name))
                && NotAccepted(world, old(world).calls[c].row, 0, tenant, r.error))
    {
      assert CallInv(world, c);
      WorkStep(world, c, user, tenant);
      Do(Work(c, user, tenant));
      if world.calls[c].Looked? { GiveUp(c); return Err(NameTaken); }
      r := Ok(());
    }

    method FlipAndCommit(c: CallId, ghost now: int, ghost tenant: TenantId) returns (r: Result<(), AcceptError>)
      requires Valid() && c in world.calls && world.calls[c].Worked?
      modifies this
      ensures Valid() && c !in world.calls
      ensures r.Err? ==> (Commit(c) in history <==> Commit(c) in old(history))
      ensures r.Ok? ==> (
                var x := old(world).calls[c];
                IsConsumed(world, x.row) && world.rows[x.row].item == x.item && Shows(world.tables, x.effect))
      ensures r.Err? ==> NotAccepted(world, old(world).calls[c].row, now, tenant, r.error)
    {
      var signup := world.calls[c].item.Signup?;
      var flipped := FlipRow(c);
      if flipped.Err? {
        return Err(if flipped.error.Failed? then Rejected else if signup then Expired else NotFound);
      }
      CommitReady(c);
      r := Ok(());
    }
  }

  /** Where a successful flip takes a call. */
  function AfterFlipping(x: Call): Call
    requires x.Looked? || x.Worked?
  {
    if x.Looked? then Flipped(x.row, x.item) else Ready(x.row, x.item, x.effect)
  }

  /** The tables show what the effect wrote. */
  ghost predicate Shows(ts: Tables, x: Effect) {
    match x
    case NewTier(t, n) => t in ts.tenants && ts.tenants[t].tier == n
    case Grant(t, f) => t in ts.tenants && f in ts.tenants[t].features
    case Override(t, a, l) => t in ts.tenants && a in ts.tenants[t].overrides && ts.tenants[t].overrides[a] == l
    case Join(u, admin, place, role) =>
      (admin ==> u in ts.admins) && (place.Some? ==> (u, place.value) in ts.members && ts.members[(u, place.value)] == role)
    case Found(u, t, name) =>
      t in ts.tenants && ts.tenants[t].name == name && (u, t) in ts.members && ts.members[(u, t)] == "owner"
  }

  /** The tenant has what the change request asked for. */
  ghost predicate Applied(ts: Tables, item: Item)
    requires item.Change?
  {
    && item.tenant in ts.tenants
    && var t := ts.tenants[item.tenant];
    || (item.kind == "tier_upgrade" && item.tier == Some(t.tier))
    || (item.kind == "feature" && item.feature.Some? && item.feature.value in t.features)
    || (item.kind == "quota_override" && item.feature.Some? && item.feature.value in t.overrides
        && item.limit == Some(t.overrides[item.feature.value]))
  }

  /** The invitation or the signup code still has time left. */
  ghost predicate NotExpired(item: Item, now: int)
    requires !item.Change?
  {
    if item.Invitation? then now < item.expires else now < item.codeExpires
  }

  /** The user has what the invitation or the approved signup promised. */
  ghost predicate Granted(ts: Tables, item: Item, user: UserId) {
    match item
    case Change(_, _, _, _, _) => false
    case Invitation(_, place, role, _) =>
      && (role == "platform_admin" ==> user in ts.admins)
      && (place.Some? ==> (user, place.value) in ts.members
                          && ts.members[(user, place.value)] == if role == "tenant_member" then "member" else "admin")
    case Signup(name, _) =>
      exists t :: t in ts.tenants && ts.tenants[t].name == name && (user, t) in ts.members && ts.members[(user, t)] == "owner"
  }
}
