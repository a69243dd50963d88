/** The fleet allocation protocol as a machine of atomic store and backend calls.

    Allocate and Deallocate are split at every call they make, so a sequence of
    events is an arbitrary interleaving of arbitrarily many of them. An event
    that the current state does not allow leaves the state alone, hence every
    sequence of events is a run. */
module FleetMachine {
  import opened Wrappers

  type Ref = string
  type RowId = nat
  type CallId = nat

  datatype Status = Pending | Ready | Shutdown | Failed

  /** One game_server_allocations row. `resolution` is the durable clean-up
      label ("" when absent); `owner` is the Allocate call that inserted it. */
  datatype Row = Row(status: Status, ref: Ref, resolution: string, owner: CallId)

  /** How a store write answers: applied; not applied and an error; or applied
      although the commit reported an error. */
  datatype Reply = Done | Refused | Lost

  /** The answer of the resolution clean-up, including the template lookup that
      precedes it. A backend without a cleaner answers Unsupported. */
  datatype Verdict = Cleaned | Unsupported | CleanupError | TemplateGone | TemplateError

  /** Where a call stands: the next request it will make. */
  datatype Call =
    | Trying(id: RowId, attempt: nat)
    | Marking(id: RowId, ref: Ref)
    | Freeing(id: RowId, ref: Ref)
    | Failing(id: RowId)
    | Reading(id: RowId)
    | Resolving(id: RowId, seen: Row)
    | Stopping(id: RowId, seen: Row)
    | Releasing(id: RowId, seen: Row)
    | Finished(ok: bool)

  /** A server the backend reported as brought up, and for whom. */
  datatype Server = Server(row: RowId, caller: CallId)

  datatype State = State(
    retries: nat,
    rows: map<RowId, Row>,
    calls: map<CallId, Call>,
    up: map<Ref, Server>,
    freed: set<Ref>,     // servers a backend free or a resolution clean-up took down
    unfreed: set<Ref>,   // servers whose clean-up free failed after a refused MarkReady
    orphaned: set<Ref>,  // servers of ready rows that were released while still up
    closed: set<RowId>)  // rows for which a free or a resolution clean-up succeeded

  datatype Event =
    | Insert(call: CallId, id: RowId, resolution: string, reply: Reply)
    | Attempt(call: CallId, up: Option<Ref>, cancelled: bool)
    | Mark(call: CallId, reply: Reply)
    | Free(call: CallId, ok: bool)
    | Fail(call: CallId, reply: Reply)
    | Open(call: CallId, id: RowId)
    | Read(call: CallId, ok: bool)
    | Cleanup(call: CallId, verdict: Verdict)
    | Stop(call: CallId, ok: bool)
    | Release(call: CallId, reply: Reply)

  ghost predicate Initial(s: State) {
    s.rows == map[] && s.calls == map[] && s.up == map[] &&
    s.freed == {} && s.unfreed == {} && s.orphaned == {} && s.closed == {}
  }

  function At(s: State, c: CallId): Call {
    if c in s.calls then s.calls[c] else Finished(false)
  }

  function Goto(s: State, c: CallId, next: Call): State {
    s.(calls := s.calls[c := next])
  }

  // ---- the store's guarded writes -------------------------------------------

  function MarkReady(row: Row, ref: Ref): Row {
    if row.status == Pending then row.(status := Ready, ref := ref) else row
  }

  function MarkFailed(row: Row): Row {
    if row.status != Shutdown then row.(status := Failed) else row
  }

  /** Deallocate has nothing to do for such a row. */
  predicate Closed(row: Row) {
    row.status == Shutdown || (row.status == Failed && row.resolution == "")
  }

  // ---- one step -------------------------------------------------------------

  function AfterInsert(s: State, c: CallId, id: RowId, resolution: string, reply: Reply): State {
    if c in s.calls || id in s.rows then s
    else if reply == Refused then Goto(s, c, Finished(false))
    else Goto(s, c, if reply == Done then Trying(id, 0) else Finished(false))
         .(rows := s.rows[id := Row(Pending, "", resolution, c)])
  }

  function AfterAttempt(s: State, c: CallId, up: Option<Ref>, cancelled: bool): State {
    match At(s, c)
    case Trying(id, n) =>
      if up.Some? then
        if up.value in s.up then s
        else Goto(s, c, Marking(id, up.value)).(up := s.up[up.value := Server(id, c)])
      else Goto(s, c, if n < s.retries && !cancelled then Trying(id, n + 1) else Failing(id))
    case _ => s
  }

  function AfterMark(s: State, c: CallId, reply: Reply): State {
    match At(s, c)
    case Marking(id, ref) =>
      if id !in s.rows || s.rows[id].status != Pending || reply == Refused then Goto(s, c, Freeing(id, ref))
      else Goto(s, c, if reply == Done then Finished(true) else Freeing(id, ref))
           .(rows := s.rows[id := MarkReady(s.rows[id], ref)])
    case _ => s
  }

  function AfterFree(s: State, c: CallId, ok: bool): State {
    match At(s, c)
    case Freeing(id, ref) =>
      if ok then Goto(s, c, Failing(id)).(freed := s.freed + {ref})
      else Goto(s, c, Failing(id)).(unfreed := s.unfreed + {ref})
    case _ => s
  }

  function AfterFail(s: State, c: CallId, reply: Reply): State {
    match At(s, c)
    case Failing(id) =>
      var s' := Goto(s, c, Finished(false));
      if reply == Refused || id !in s.rows then s'
      else s'.(rows := s.rows[id := MarkFailed(s.rows[id])])
    case _ => s
  }

  function AfterOpen(s: State, c: CallId, id: RowId): State {
    if c in s.calls then s else Goto(s, c, Reading(id))
  }

  function AfterRead(s: State, c: CallId, ok: bool): State {
    match At(s, c)
    case Reading(id) =>
      if !ok || id !in s.rows then Goto(s, c, Finished(false))
      else
        var row := s.rows[id];
        Goto(s, c, if Closed(row) then Finished(true)
                   else if row.resolution != "" then Resolving(id, row)
                   else Stopping(id, row))
    case _ => s
  }

  /** Every server brought up so far for a row that carries this label. */
  function Labelled(s: State, resolution: string): set<Ref> {
    set r | r in s.up && s.up[r].row in s.rows && s.rows[s.up[r].row].resolution == resolution
  }

  function AfterCleanup(s: State, c: CallId, verdict: Verdict): State {
    match At(s, c)
    case Resolving(id, seen) =>
      if verdict == Cleaned then
        Goto(s, c, Releasing(id, seen)).(freed := s.freed + Labelled(s, seen.resolution), closed := s.closed + {id})
      else if (verdict == Unsupported || verdict == TemplateGone) && seen.ref != "" then
        Goto(s, c, Stopping(id, seen))
      else Goto(s, c, Finished(false))
    case _ => s
  }

  function AfterStop(s: State, c: CallId, ok: bool): State {
    match At(s, c)
    case Stopping(id, seen) =>
      if ok then
        Goto(s, c, Releasing(id, seen)).(freed := s.freed + ({seen.ref} * s.up.Keys), closed := s.closed + {id})
      else Goto(s, c, Finished(false))
    case _ => s
  }

  function AfterRelease(s: State, c: CallId, reply: Reply): State {
    match At(s, c)
    case Releasing(id, seen) =>
      var s' := Goto(s, c, Finished(reply == Done));
      if reply == Refused || id !in s.rows then s'
      else
        var row := s.rows[id];
        s'.(rows := s.rows[id := row.(status := Shutdown)],
            orphaned := s.orphaned + (if row.status == Ready && row.ref !in s.freed then {row.ref} else {}))
    case _ => s
  }

  function Next(s: State, e: Event): State {
    match e
    case Insert(c, id, resolution, reply) => AfterInsert(s, c, id, resolution, reply)
    case Attempt(c, up, cancelled) => AfterAttempt(s, c, up, cancelled)
    case Mark(c, reply) => AfterMark(s, c, reply)
    case Free(c, ok) => AfterFree(s, c, ok)
    case Fail(c, reply) => AfterFail(s, c, reply)
    case Open(c, id) => AfterOpen(s, c, id)
    case Read(c, ok) => AfterRead(s, c, ok)
    case Cleanup(c, verdict) => AfterCleanup(s, c, verdict)
    case Stop(c, ok) => AfterStop(s, c, ok)
    case Release(c, reply) => AfterRelease(s, c, reply)
  }

  function Run(s: State, es: seq<Event>): State {
    if es == [] then s else Next(Run(s, es[..|es| - 1]), es[|es| - 1])
  }

  // ---- the invariant --------------------------------------------------------

  /** The server is down, or a ready row names it, or its clean-up free failed. */
  ghost predicate Accounted(s: State, r: Ref)
    requires r in s.up
  {
    || r in s.freed
    || r in s.unfreed
    || (s.up[r].row in s.rows && s.rows[s.up[r].row].status == Ready && s.rows[s.up[r].row].ref == r)
  }

  ghost predicate Held(s: State, r: Ref)
    requires r in s.up
  {
    var c := At(s, s.up[r].caller);
    c == Marking(s.up[r].row, r) || c == Freeing(s.up[r].row, r)
  }

  ghost predicate ServerInv(s: State, r: Ref)
    requires r in s.up
  {
    s.up[r].row in s.rows && (Accounted(s, r) || Held(s, r) || r in s.orphaned)
  }

  ghost predicate RowInv(s: State, id: RowId)
    requires id in s.rows
  {
    var row := s.rows[id];
    && (row.status == Ready ==> row.ref in s.up && s.up[row.ref].row == id)
    && (row.status == Shutdown ==> id in s.closed)
  }

  ghost predicate OwnRow(s: State, c: CallId, id: RowId) {
    id in s.rows && s.rows[id].owner == c
  }

  /** What a Deallocate may still rely on from the row it read earlier. */
  ghost predicate SeenInv(s: State, id: RowId, seen: Row) {
    && id in s.rows
    && s.rows[id].resolution == seen.resolution
    && (seen.status != Pending ==> s.rows[id].status != Pending && s.rows[id].ref == seen.ref)
    && (seen.status != Pending && s.rows[id].status == Ready ==> seen.status == Ready)
    && (seen.status == Ready ==> seen.ref in s.up && s.up[seen.ref].row == id)
  }

  ghost predicate CallInv(s: State, c: CallId)
    requires c in s.calls
  {
    match s.calls[c]
    case Trying(id, n) => OwnRow(s, c, id) && s.rows[id].status != Ready && n <= s.retries
    case Marking(id, r) => OwnRow(s, c, id) && s.rows[id].status != Ready && r in s.up && s.up[r] == Server(id, c)
    case Freeing(id, r) =>
      && OwnRow(s, c, id) && r in s.up && s.up[r] == Server(id, c)
      && (s.rows[id].status == Ready ==> s.rows[id].ref == r)
    case Failing(id) =>
      OwnRow(s, c, id) && (s.rows[id].status == Ready ==> s.rows[id].ref in s.freed + s.unfreed)
    case Reading(id) => true
    case Resolving(id, seen) => SeenInv(s, id, seen)
    case Stopping(id, seen) => SeenInv(s, id, seen)
    case Releasing(id, seen) => SeenInv(s, id, seen) && id in s.closed && (seen.status == Ready ==> seen.ref in s.freed)
    case Finished(ok) => true
  }

  ghost predicate Inv(s: State) {
    && (forall c | c in s.calls :: CallInv(s, c))
    && (forall id | id in s.rows :: RowInv(s, id) && s.rows[id].owner in s.calls)
    && (forall r | r in s.up :: ServerInv(s, r))
  }
}
