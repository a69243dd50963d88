/** The Manager's Allocate and Deallocate as written, with any number of other
    calls running between every two of their requests. `world` is the store and
    the backend together; `history` is the ghost record of all events so far.

    Each method moves its own call through the machine's program points, so a
    skipped or reordered request leaves the call unfinished. */
module FleetManager {
  import opened Wrappers
  import opened FleetMachine
  import opened FleetSafety

  datatype AllocateError =
    | FleetRequired | TemplateLookup | BackendMismatch | InsertFailed
    | Cancelled | MarkReadyFailed | Exhausted

  datatype Allocation = Allocation(id: RowId, ref: Ref)

  datatype Request = Request(fleetID: int, resolution: string)

  datatype DeallocateError = NotFound | NeedsCleanup | BackendFailed | ReleaseFailed

  /** The answer behind each error of Deallocate, which is the last it got. */
  ghost predicate Explains(e: Event, c: CallId, error: DeallocateError) {
    match error
    case NotFound => e == Read(c, false)
    case NeedsCleanup => e.Cleanup? && e.call == c && e.verdict != Cleaned
    case BackendFailed => e == Stop(c, false)
    case ReleaseFailed => e.Release? && e.call == c && e.reply != Done
  }

  // ---- what other calls may do meanwhile -------------------------------------

  ghost predicate RowsPersist(s: State, t: State) {
    t.retries == s.retries && s.freed <= t.freed && s.unfreed <= t.unfreed &&
    forall id | id in s.rows ::
      id in t.rows && t.rows[id].resolution == s.rows[id].resolution && (Closed(s.rows[id]) ==> Closed(t.rows[id]))
  }

  ghost predicate SameCall(s: State, t: State, c: CallId) {
    At(t, c) == At(s, c) && (c in t.calls <==> c in s.calls)
  }

  lemma StepPersists(s: State, e: Event)
    ensures RowsPersist(s, Next(s, e))
  {
  }

  lemma OthersLeaveCall(s: State, e: Event, c: CallId)
    requires e.call != c
    ensures SameCall(s, Next(s, e), c)
  {
  }

  lemma InsertStep(s: State, c: CallId, id: RowId, resolution: string, reply: Reply)
    requires c !in s.calls && (id in s.rows ==> reply == Refused)
    ensures var t := Next(s, Insert(c, id, resolution, reply));
            && t.retries == s.retries
            && (reply == Done ==> At(t, c) == Trying(id, 0) && t.rows == s.rows[id := Row(Pending, "", resolution, c)])
            && (reply != Done ==> At(t, c) == Finished(false))
  {
  }

  lemma ReleaseStep(s: State, c: CallId, reply: Reply)
    requires At(s, c).Releasing? && At(s, c).id in s.rows
    ensures var id, t := At(s, c).id, Next(s, Release(c, reply));
            At(t, c) == Finished(reply == Done) && (reply == Done ==> id in t.rows && t.rows[id].status == Shutdown)
  {
  }

  /** How often call c asked the backend for a server. */
  function Attempts(es: seq<Event>, c: CallId): nat {
    if es == [] then 0
    else Attempts(es[..|es| - 1], c) + (if es[|es| - 1].Attempt? && es[|es| - 1].call == c then 1 else 0)
  }

  lemma AttemptsSnoc(es: seq<Event>, e: Event, c: CallId)
    ensures Attempts(es + [e], c) == Attempts(es, c) + (if e.Attempt? && e.call == c then 1 else 0)
  {
    assert (es + [e])[..|es|] == es;
  }

  class Manager {
    const backendName: string
    var world: State
    ghost const origin: State
    ghost var history: seq<Event>

    ghost predicate Valid()
      reads this
    {
      Initial(origin) && world == Run(origin, history) && Inv(world)
    }

    constructor (backendName: string, retries: nat)
      ensures Valid() && world.retries == retries && this.backendName == backendName && history == []
    {
      this.backendName := backendName;
      var start := State(retries, map[], map[], map[], {}, {}, {}, {});
      world, origin, history := start, start, [];
      InitialInv(start);
    }

    /** One atomic request, answered as e says. */
    method Do(e: Event)
      requires Valid()
      modifies this
      ensures Valid() && history == old(history) + [e] && world == Next(old(world), e)
    {
      RunSnoc(origin, history, e);
      StepKeeps(world, e);
      world := Next(world, e);
      history := history + [e];
    }

    /** Any number of steps of any other calls. */
    method Others(c: CallId)
      requires Valid()
      modifies this
      ensures Valid() && SameCall(old(world), world, c) && RowsPersist(old(world), world)
      ensures Attempts(history, c) == old(Attempts(history, c))
    {
      var n: nat := *;
      while n > 0
        invariant Valid() && SameCall(old(world), world, c) && RowsPersist(old(world), world)
        invariant Attempts(history, c) == old(Attempts(history, c))
      {
        var e: Event := *;
        if e.call != c {
          OthersLeaveCall(world, e, c);
          StepPersists(world, e);
          AttemptsSnoc(history, e, c);
          Do(e);
        }
        n := n - 1;
      }
    }

    // ---- Allocate -------------------------------------------------------------

    method Allocate(c: CallId, req: Request, template: Option<string>) returns (r: Result<Allocation, AllocateError>)
      requires Valid() && c !in world.calls
      modifies this
      ensures Valid()
      ensures r == Err(FleetRequired) <==> req.fleetID == 0
      ensures r == Err(TemplateLookup) <==> req.fleetID != 0 && template == None
      ensures r == Err(BackendMismatch) <==> req.fleetID != 0 && template.Some? && template.value != backendName
      ensures r.Err? && (r.error.FleetRequired? || r.error.TemplateLookup? || r.error.BackendMismatch?) ==>
                world == old(world) && history == old(history)
      // the call has run to its end, so it holds no server any more
      ensures At(world, c) == Finished(r.Ok?)
      ensures r.Ok? ==>
                (&& r.value.id in world.rows && r.value.ref in world.up
                 && world.rows[r.value.id] == Row(Ready, r.value.ref, req.resolution, c)
                 && world.up[r.value.ref] == Server(r.value.id, c))
      ensures Attempts(history, c) <= old(Attempts(history, c)) + world.retries + 1
      // it gives up between two attempts only if the context has ended
      ensures r == Err(Cancelled) ==> |history| >= 2 && history[|history| - 2] == Attempt(c, None, true)
      ensures r == Err(InsertFailed) ==> history != [] && history[|history| - 1].Insert? && history[|history| - 1].reply != Done
      ensures r == Err(Exhausted) ==> Attempts(history, c) == old(Attempts(history, c)) + world.retries + 1
    {
      if req.fleetID == 0 { return Err(FleetRequired); }
      if template == None { return Err(TemplateLookup); }
      if template.value != backendName { return Err(BackendMismatch); }
      Others(c);
      var id, ok := InsertPending(c, req.resolution);
      if !ok { return Err(InsertFailed); }
      var attempt := 0;
      while attempt <= world.retries
        invariant Valid() && attempt <= world.retries + 1
        invariant Attempts(history, c) == old(Attempts(history, c)) + attempt
        invariant id in world.rows && world.rows[id].resolution == req.resolution
        invariant At(world, c) == if attempt <= world.retries then Trying(id, attempt) else Failing(id)
        decreases world.retries + 1 - attempt
      {
        Others(c);
        var up, cancelled := AskBackend(c, id, attempt);
        match up
        case Some(ref) =>
          r := Persist(c, id, ref);
          return;
        case None =>
          if cancelled && attempt < world.retries {
            var _ := GiveUp(c, id);
            return Err(Cancelled);
          }
          attempt := attempt + 1;
      }
      var _ := GiveUp(c, id);
      r := Err(Exhausted);
    }

    /** Asks for a pending row; the number of a new row is unused. */
    method InsertPending(c: CallId, resolution: string) returns (id: RowId, ok: bool)
      requires Valid() && c !in world.calls
      modifies this
      ensures Valid() && world.retries == old(world.retries) && Attempts(history, c) == old(Attempts(history, c))
      ensures ok ==> At(world, c) == Trying(id, 0) && id !in old(world.rows)
                     && world.rows == old(world.rows)[id := Row(Pending, "", resolution, c)]
      ensures !ok ==> At(world, c) == Finished(false)
      ensures history != [] && history[|history| - 1].Insert? && (ok <==> history[|history| - 1].reply == Done)
    {
      var reply: Reply := *;
      id := *;
      if id in world.rows { reply := Refused; }
      ok := id !in world.rows && reply == Done;
      AttemptsSnoc(history, Insert(c, id, resolution, reply), c);
      InsertStep(world, c, id, resolution, reply);
      Do(Insert(c, id, resolution, reply));
    }

    /** One backend.Allocate; a reported reference is new. A failure may be
        followed by the context ending during the backoff. */
    method AskBackend(c: CallId, id: RowId, attempt: nat) returns (up: Option<Ref>, cancelled: bool)
      requires Valid() && At(world, c) == Trying(id, attempt)
      modifies this
      ensures Valid() && world.rows == old(world.rows) && world.retries == old(world.retries)
      ensures Attempts(history, c) == old(Attempts(history, c)) + 1
      ensures history == old(history) + [Attempt(c, up, cancelled)]
      ensures up.Some? ==> At(world, c) == Marking(id, up.value)
      ensures up.None? ==> At(world, c) == if attempt < world.retries && !cancelled then Trying(id, attempt + 1) else Failing(id)
    {
      up := *;
      cancelled := *;
      if up.Some? && up.value in world.up { up := None; }
      AttemptsSnoc(history, Attempt(c, up, cancelled), c);
      Do(Attempt(c, up, cancelled));
    }

    /** MarkReady and, when it reports an error, the clean-up after it. */
    method Persist(c: CallId, id: RowId, ref: Ref) returns (r: Result<Allocation, AllocateError>)
      requires Valid() && At(world, c) == Marking(id, ref) && id in world.rows
      modifies this
      ensures Valid() && At(world, c) == Finished(r.Ok?) && world.retries == old(world.retries)
      ensures Attempts(history, c) == old(Attempts(history, c))
      ensures r.Ok? ==>
                (&& r.value == Allocation(id, ref) && id in world.rows && ref in world.up
                 && world.rows[id] == Row(Ready, ref, old(world.rows[id].resolution), c)
                 && world.up[ref] == Server(id, c))
      ensures r.Err? ==> r.error == MarkReadyFailed && ref in world.freed + world.unfreed
    {
      Others(c);
      var ok := MarkRow(c, id, ref);
      if ok { return Ok(Allocation(id, ref)); }
      var _ := CleanupAfterMarkReadyFailure(c, id, ref);
      r := Err(MarkReadyFailed);
    }

    /** Refused when the row is no longer pending. */
    method MarkRow(c: CallId, id: RowId, ref: Ref) returns (ok: bool)
      requires Valid() && At(world, c) == Marking(id, ref) && id in world.rows
      modifies this
      ensures Valid() && world.retries == old(world.retries) && Attempts(history, c) == old(Attempts(history, c))
      ensures ok ==>
                (&& At(world, c) == Finished(true) && id in world.rows && ref in world.up
                 && world.rows == old(world.rows)[id := Row(Ready, ref, old(world.rows[id].resolution), c)]
                 && world.up[ref] == Server(id, c))
      ensures !ok ==> At(world, c) == Freeing(id, ref)
      ensures old(world.rows[id].status) != Pending ==> !ok && world.rows == old(world.rows)
    {
      assert CallInv(world, c);
      var reply: Reply := *;
      ok := world.rows[id].status == Pending && reply == Done;
      AttemptsSnoc(history, Mark(c, reply), c);
      Do(Mark(c, reply));
    }

    /** Frees the server, then marks the row failed whatever the free answered. */
    method CleanupAfterMarkReadyFailure(c: CallId, id: RowId, ref: Ref) returns (marked: bool)
      requires Valid() && At(world, c) == Freeing(id, ref)
      modifies this
      ensures Valid() && At(world, c) == Finished(false) && world.retries == old(world.retries)
      ensures Attempts(history, c) == old(Attempts(history, c))
      ensures ref in world.freed + world.unfreed
      ensures marked ==> id in world.rows && (world.rows[id].status == Failed || world.rows[id].status == Shutdown)
    {
      Others(c);
      var freed: bool := *;
      AttemptsSnoc(history, Free(c, freed), c);
      Do(Free(c, freed));
      Others(c);
      marked := GiveUp(c, id);
    }

    /** MarkFailed, whose error changes nothing for the caller. */
    method GiveUp(c: CallId, id: RowId) returns (marked: bool)
      requires Valid() && At(world, c) == Failing(id)
      modifies this
      ensures Valid() && At(world, c) == Finished(false) && world.retries == old(world.retries)
      ensures Attempts(history, c) == old(Attempts(history, c))
      ensures world.freed == old(world.freed) && world.unfreed == old(world.unfreed)
      ensures |history| == |old(history)| + 1 && history[..|history| - 1] == old(history) && history[|history| - 1].Fail?
      ensures marked ==> id in world.rows && (world.rows[id].status == Failed || world.rows[id].status == Shutdown)
    {
      assert CallInv(world, c);
      var reply: Reply := *;
      AttemptsSnoc(history, Fail(c, reply), c);
      Do(Fail(c, reply));
      marked := reply == Done;
    }

    // ---- Deallocate -----------------------------------------------------------

    method Deallocate(c: CallId, id: RowId, canClean: bool) returns (r: Result<(), DeallocateError>)
      requires Valid() && c !in world.calls
      modifies this
      ensures Valid() && At(world, c) == Finished(r.Ok?)
      // a failed row that still carries a clean-up label is no success
      ensures r.Ok? ==> id in world.rows && (world.rows[id].status == Shutdown || (world.rows[id].status == Failed && world.rows[id].resolution == ""))
      ensures r.Err? ==> history != [] && Explains(history[|history| - 1], c, r.error)
    {
      Do(Open(c, id));
      Others(c);
      var read, a := Get(c, id);
      if !read { return Err(NotFound); }
      if Closed(a) { return Ok(()); }
      r := TakeDown(c, id, a, canClean);
    }

    /** The resolution clean-up with its fallback, or the plain free; then the release. */
    method TakeDown(c: CallId, id: RowId, a: Row, canClean: bool) returns (r: Result<(), DeallocateError>)
      requires Valid() && At(world, c) == if a.resolution != "" then Resolving(id, a) else Stopping(id, a)
      modifies this
      ensures Valid() && At(world, c) == Finished(r.Ok?)
      ensures r.Ok? ==> id in world.rows && world.rows[id].status == Shutdown
      ensures r.Err? ==> history != [] && Explains(history[|history| - 1], c, r.error)
    {
      if a.resolution == "" {
        r := StopAndFinish(c, id, a);
      } else {
        Others(c);
        var verdict := CleanupResolution(c, id, a, canClean);
        if verdict == Cleaned {
          r := Finish(c, id, a);
        } else if (verdict == Unsupported || verdict == TemplateGone) && a.ref != "" {
          r := StopAndFinish(c, id, a);
        } else {
          r := Err(NeedsCleanup);
        }
      }
    }

    /** The backend frees the reference; only then is the row released. */
    method StopAndFinish(c: CallId, id: RowId, a: Row) returns (r: Result<(), DeallocateError>)
      requires Valid() && At(world, c) == Stopping(id, a)
      modifies this
      ensures Valid() && At(world, c) == Finished(r.Ok?)
      ensures r.Ok? ==> id in world.rows && world.rows[id].status == Shutdown
      ensures r.Err? ==> history != [] && Explains(history[|history| - 1], c, r.error)
    {
      Others(c);
      var stopped := StopServer(c, id, a);
      if stopped { r := Finish(c, id, a); } else { r := Err(BackendFailed); }
    }

    method Get(c: CallId, id: RowId) returns (ok: bool, a: Row)
      requires Valid() && At(world, c) == Reading(id)
      modifies this
      ensures Valid() && world.rows == old(world.rows) && history == old(history) + [Read(c, ok)]
      ensures !ok ==> At(world, c) == Finished(false)
      ensures ok ==> id in world.rows && a == world.rows[id]
                     && At(world, c) == if Closed(a) then Finished(true)
                                        else if a.resolution != "" then Resolving(id, a) else Stopping(id, a)
    {
      ok := *;
      ok := ok && id in world.rows;
      a := if id in world.rows then world.rows[id] else Row(Pending, "", "", 0);
      Do(Read(c, ok));
    }

    method CleanupResolution(c: CallId, id: RowId, a: Row, canClean: bool) returns (verdict: Verdict)
      requires Valid() && At(world, c) == Resolving(id, a)
      modifies this
      ensures Valid() && (!canClean ==> verdict == Unsupported) && history == old(history) + [Cleanup(c, verdict)]
      ensures At(world, c) == if verdict == Cleaned then Releasing(id, a)
                              else if (verdict == Unsupported || verdict == TemplateGone) && a.ref != "" then Stopping(id, a)
                              else Finished(false)
    {
      verdict := *;
      if !canClean { verdict := Unsupported; }
      Do(Cleanup(c, verdict));
    }

    method StopServer(c: CallId, id: RowId, a: Row) returns (ok: bool)
      requires Valid() && At(world, c) == Stopping(id, a)
      modifies this
      ensures Valid() && At(world, c) == (if ok then Releasing(id, a) else Finished(false))
      ensures history == old(history) + [Stop(c, ok)]
    {
      ok := *;
      Do(Stop(c, ok));
    }

    method Finish(c: CallId, id: RowId, a: Row) returns (r: Result<(), DeallocateError>)
      requires Valid() && At(world, c) == Releasing(id, a)
      modifies this
      ensures Valid() && At(world, c) == Finished(r.Ok?)
      ensures r.Ok? ==> id in world.rows && world.rows[id].status == Shutdown
      ensures history != [] && history[|history| - 1].Release? && history[|history| - 1].call == c
      ensures r.Ok? <==> history[|history| - 1].reply == Done
      ensures r.Err? ==> r.error == ReleaseFailed
    {
      Others(c);
      assert CallInv(world, c);
      var reply: Reply := *;
      ReleaseStep(world, c, reply);
      Do(Release(c, reply));
      r := if reply == Done then Ok(()) else Err(ReleaseFailed);
    }
  }
}
