/** Safety of every run of the fleet protocol. */
module FleetSafety {
  import opened Wrappers
  import opened FleetMachine

  // ---- what a step of call c may do to the rest of the system ----------------

  ghost predicate RowGrows(a: Row, b: Row, c: CallId) {
    && b.owner == a.owner && b.resolution == a.resolution
    && (a.status != Pending ==> b.status != Pending && b.ref == a.ref)
    && (a.status == Shutdown ==> b.status == Shutdown)
    && (b.status == Ready ==> a.status == Ready || (a.status == Pending && a.owner == c))
  }

  ghost predicate Grows(s: State, t: State, c: CallId) {
    && t.retries == s.retries
    && s.freed <= t.freed && s.unfreed <= t.unfreed && s.orphaned <= t.orphaned && s.closed <= t.closed
    && (forall id | id in s.rows :: id in t.rows && RowGrows(s.rows[id], t.rows[id], c))
    && (forall r | r in s.up :: r in t.up && t.up[r] == s.up[r])
    && c in t.calls
    && (forall x | x in s.calls && x != c :: x in t.calls && t.calls[x] == s.calls[x])
    && (forall x | x in t.calls && x != c :: x in s.calls)
  }

  lemma OtherCallKeeps(s: State, t: State, c: CallId, x: CallId)
    requires Grows(s, t, c) && x != c && x in s.calls && CallInv(s, x)
    ensures CallInv(t, x)
  {
  }

  /** A step keeps the invariant if it does so for what it touches itself. */
  lemma Frame(s: State, t: State, c: CallId)
    requires Inv(s) && Grows(s, t, c) && CallInv(t, c)
    requires forall id | id in t.rows && (id !in s.rows || t.rows[id] != s.rows[id]) ::
               RowInv(t, id) && t.rows[id].owner in t.calls
    requires forall r | r in t.up :: r in s.up && (Accounted(s, r) || Held(s, r)) ==> ServerInv(t, r)
    requires forall r | r in t.up :: r !in s.up ==> ServerInv(t, r)
    ensures Inv(t)
  {
    forall x | x in t.calls ensures CallInv(t, x) {
      if x != c { OtherCallKeeps(s, t, c, x); }
    }
    forall r | r in t.up ensures ServerInv(t, r) {
      if r in s.up { assert ServerInv(s, r); }
    }
    forall id | id in t.rows ensures RowInv(t, id) && t.rows[id].owner in t.calls {
      if id in s.rows && t.rows[id] == s.rows[id] { assert RowInv(s, id); }
    }
  }

  /** A call moves on without touching anything else. */
  lemma GotoKeeps(s: State, c: CallId, next: Call)
    requires Inv(s) && CallInv(Goto(s, c, next), c)
    requires forall r | r in s.up && s.up[r].caller == c && Held(s, r) :: ServerInv(Goto(s, c, next), r)
    ensures Inv(Goto(s, c, next))
  {
    var t := Goto(s, c, next);
    forall x | x in t.calls ensures CallInv(t, x) {
      if x != c { assert CallInv(s, x); OtherCallKeeps(s, t, c, x); }
    }
    forall r | r in t.up ensures ServerInv(t, r) {
      assert ServerInv(s, r);
    }
    forall id | id in t.rows ensures RowInv(t, id) && t.rows[id].owner in t.calls {
      assert RowInv(s, id);
    }
  }

  /** Taking servers down, or recording a row as cleaned, never hurts. */
  lemma TakeDownKeeps(s: State, down: set<Ref>, cleaned: set<RowId>)
    requires Inv(s)
    ensures Inv(s.(freed := s.freed + down, closed := s.closed + cleaned))
  {
    var t := s.(freed := s.freed + down, closed := s.closed + cleaned);
    forall x | x in t.calls ensures CallInv(t, x) { assert CallInv(s, x); }
    forall r | r in t.up ensures ServerInv(t, r) { assert ServerInv(s, r); }
    forall id | id in t.rows ensures RowInv(t, id) && t.rows[id].owner in t.calls { assert RowInv(s, id); }
  }

  // ---- each event -----------------------------------------------------------

  lemma InsertKeeps(s: State, c: CallId, id: RowId, resolution: string, reply: Reply)
    requires Inv(s)
    ensures Inv(AfterInsert(s, c, id, resolution, reply))
  {
    var t := AfterInsert(s, c, id, resolution, reply);
    if c !in s.calls && id !in s.rows {
      forall r | r in s.up ensures ServerInv(t, r) { assert ServerInv(s, r); }
      Frame(s, t, c);
    }
  }

  lemma AttemptKeeps(s: State, c: CallId, up: Option<Ref>, cancelled: bool)
    requires Inv(s)
    ensures Inv(AfterAttempt(s, c, up, cancelled))
  {
    var t := AfterAttempt(s, c, up, cancelled);
    if t != s {
      assert CallInv(s, c);
      forall r | r in s.up ensures ServerInv(t, r) { assert ServerInv(s, r); }
      Frame(s, t, c);
    }
  }

  lemma MarkAppliedKeeps(s: State, c: CallId, id: RowId, ref: Ref, next: Call)
    requires Inv(s) && At(s, c) == Marking(id, ref) && id in s.rows && s.rows[id].status == Pending
    requires next == Finished(true) || next == Freeing(id, ref)
    ensures Inv(Goto(s, c, next).(rows := s.rows[id := MarkReady(s.rows[id], ref)]))
  {
    var t := Goto(s, c, next).(rows := s.rows[id := MarkReady(s.rows[id], ref)]);
    assert CallInv(s, c);
    forall r | r in t.up ensures ServerInv(t, r) { assert ServerInv(s, r); }
    Frame(s, t, c);
  }

  lemma MarkKeeps(s: State, c: CallId, reply: Reply)
    requires Inv(s)
    ensures Inv(AfterMark(s, c, reply))
  {
    match At(s, c)
    case Marking(id, ref) =>
      assert CallInv(s, c);
      if s.rows[id].status != Pending || reply == Refused {
        GotoKeeps(s, c, Freeing(id, ref));
      } else {
        MarkAppliedKeeps(s, c, id, ref, if reply == Done then Finished(true) else Freeing(id, ref));
      }
    case _ =>
  }

  lemma FreeKeeps(s: State, c: CallId, ok: bool)
    requires Inv(s)
    ensures Inv(AfterFree(s, c, ok))
  {
    var t := AfterFree(s, c, ok);
    if At(s, c).Freeing? {
      assert CallInv(s, c);
      forall r | r in s.up ensures ServerInv(t, r) { assert ServerInv(s, r); }
      Frame(s, t, c);
    }
  }

  lemma FailKeeps(s: State, c: CallId, reply: Reply)
    requires Inv(s)
    ensures Inv(AfterFail(s, c, reply))
  {
    match At(s, c)
    case Failing(id) =>
      assert CallInv(s, c);
      if reply == Refused || id !in s.rows { GotoKeeps(s, c, Finished(false)); } else { FailAppliedKeeps(s, c, id); }
    case _ =>
  }

  /** The servers of a failed row are down, or their clean-up free has failed. */
  lemma FailedServers(s: State, t: State, c: CallId, id: RowId)
    requires Inv(s) && At(s, c) == Failing(id) && c in s.calls && CallInv(s, c) && id in s.rows
    requires t == Goto(s, c, Finished(false)).(rows := s.rows[id := MarkFailed(s.rows[id])])
    ensures forall r | r in s.up :: ServerInv(t, r)
  {
    forall r | r in s.up ensures ServerInv(t, r) { assert ServerInv(s, r); }
  }

  lemma FailAppliedKeeps(s: State, c: CallId, id: RowId)
    requires Inv(s) && At(s, c) == Failing(id) && id in s.rows
    ensures Inv(Goto(s, c, Finished(false)).(rows := s.rows[id := MarkFailed(s.rows[id])]))
  {
    var t := Goto(s, c, Finished(false)).(rows := s.rows[id := MarkFailed(s.rows[id])]);
    assert CallInv(s, c);
    FailedServers(s, t, c, id);
    assert forall x | x in s.rows :: RowGrows(s.rows[x], t.rows[x], c);
    assert RowInv(t, id) by { assert RowInv(s, id); }
    Frame(s, t, c);
  }

  lemma ReadKeeps(s: State, c: CallId, ok: bool)
    requires Inv(s)
    ensures Inv(AfterRead(s, c, ok))
  {
    var t := AfterRead(s, c, ok);
    match At(s, c)
    case Reading(id) =>
      if id in s.rows { assert RowInv(s, id); }
      GotoKeeps(s, c, t.calls[c]);
    case _ =>
  }

  lemma CleanupKeeps(s: State, c: CallId, verdict: Verdict)
    requires Inv(s)
    ensures Inv(AfterCleanup(s, c, verdict))
  {
    match At(s, c)
    case Resolving(id, seen) =>
      assert CallInv(s, c);
      if verdict == Cleaned { CleanedKeeps(s, c, id, seen); }
      else { GotoKeeps(s, c, AfterCleanup(s, c, verdict).calls[c]); }
    case _ =>
  }

  lemma CleanedKeeps(s: State, c: CallId, id: RowId, seen: Row)
    requires Inv(s) && c in s.calls && s.calls[c] == Resolving(id, seen) && seen.resolution == s.rows[id].resolution
    ensures Inv(AfterCleanup(s, c, Cleaned))
  {
    assert CallInv(s, c);
    var u := s.(freed := s.freed + Labelled(s, seen.resolution), closed := s.closed + {id});
    TakeDownKeeps(s, Labelled(s, seen.resolution), {id});
    GotoKeeps(u, c, Releasing(id, seen));
  }

  lemma StopKeeps(s: State, c: CallId, ok: bool)
    requires Inv(s)
    ensures Inv(AfterStop(s, c, ok))
  {
    match At(s, c)
    case Stopping(id, seen) =>
      assert CallInv(s, c);
      if ok {
        var u := s.(freed := s.freed + ({seen.ref} * s.up.Keys), closed := s.closed + {id});
        TakeDownKeeps(s, {seen.ref} * s.up.Keys, {id});
        GotoKeeps(u, c, Releasing(id, seen));
      } else {
        GotoKeeps(s, c, Finished(false));
      }
    case _ =>
  }

  lemma ReleaseAppliedKeeps(s: State, c: CallId, id: RowId, seen: Row, ok: bool)
    requires Inv(s) && At(s, c) == Releasing(id, seen) && c in s.calls && CallInv(s, c)
    ensures var row := s.rows[id];
            Inv(Goto(s, c, Finished(ok)).(
                  rows := s.rows[id := row.(status := Shutdown)],
                  orphaned := s.orphaned + (if row.status == Ready && row.ref !in s.freed then {row.ref} else {})))
  {
    var row := s.rows[id];
    var t := Goto(s, c, Finished(ok)).(
                  rows := s.rows[id := row.(status := Shutdown)],
                  orphaned := s.orphaned + (if row.status == Ready && row.ref !in s.freed then {row.ref} else {}));
    forall r | r in t.up ensures ServerInv(t, r) { assert ServerInv(s, r); }
    assert forall x | x in s.rows :: RowGrows(s.rows[x], t.rows[x], c);
    assert RowInv(t, id) by { assert RowInv(s, id); }
    Frame(s, t, c);
  }

  lemma ReleaseKeeps(s: State, c: CallId, reply: Reply)
    requires Inv(s)
    ensures Inv(AfterRelease(s, c, reply))
  {
    var t := AfterRelease(s, c, reply);
    match At(s, c)
    case Releasing(id, seen) =>
      assert CallInv(s, c);
      if reply == Refused {
        GotoKeeps(s, c, Finished(false));
      } else {
        ReleaseAppliedKeeps(s, c, id, seen, reply == Done);
      }
    case _ =>
  }

  lemma StepKeeps(s: State, e: Event)
    requires Inv(s)
    ensures Inv(Next(s, e))
  {
    match e
    case Insert(c, id, resolution, reply) => InsertKeeps(s, c, id, resolution, reply);
    case Attempt(c, up, cancelled) => AttemptKeeps(s, c, up, cancelled);
    case Mark(c, reply) => MarkKeeps(s, c, reply);
    case Free(c, ok) => FreeKeeps(s, c, ok);
    case Fail(c, reply) => FailKeeps(s, c, reply);
    case Open(c, id) => if c !in s.calls { GotoKeeps(s, c, Reading(id)); }
    case Read(c, ok) => ReadKeeps(s, c, ok);
    case Cleanup(c, verdict) => CleanupKeeps(s, c, verdict);
    case Stop(c, ok) => StopKeeps(s, c, ok);
    case Release(c, reply) => ReleaseKeeps(s, c, reply);
  }

  /** Every reachable state satisfies the invariant, whatever the interleaving and the failures. */
  lemma {:induction false} RunKeeps(s: State, es: seq<Event>)
    requires Inv(s)
    ensures Inv(Run(s, es))
  {
    if es != [] {
      RunKeeps(s, es[..|es| - 1]);
      StepKeeps(Run(s, es[..|es| - 1]), es[|es| - 1]);
    }
  }

  lemma InitialInv(s: State)
    requires Initial(s)
    ensures Inv(s)
  {
  }

  lemma RunSnoc(s: State, es: seq<Event>, e: Event)
    ensures Run(s, es + [e]) == Next(Run(s, es), e)
  {
    assert (es + [e])[..|es|] == es;
  }

  // ---- rows never come back --------------------------------------------------

  lemma StepRow(s: State, e: Event, id: RowId)
    requires id in s.rows
    ensures var row := s.rows[id]; var t := Next(s, e);
            && id in t.rows
            && (row.status == Shutdown ==> t.rows[id].status == Shutdown)
            && (row.status != Pending ==> t.rows[id].status != Pending && t.rows[id].ref == row.ref)
            && (t.rows[id].status == Ready ==> row.status == Ready || row.status == Pending)
  {
  }

  /** No row becomes ready after leaving pending, and a shut-down row stays shut down. */
  lemma {:induction false} NeverReadyAgain(s: State, es: seq<Event>, id: RowId)
    requires id in s.rows && s.rows[id].status != Pending
    ensures var t := Run(s, es);
            && id in t.rows && t.rows[id].ref == s.rows[id].ref && t.rows[id].status != Pending
            && (t.rows[id].status == Ready ==> s.rows[id].status == Ready)
            && (s.rows[id].status == Shutdown ==> t.rows[id].status == Shutdown)
  {
    if es != [] {
      NeverReadyAgain(s, es[..|es| - 1], id);
      StepRow(Run(s, es[..|es| - 1]), es[|es| - 1], id);
    }
  }

  /** The store's guards: only a pending row becomes ready, and only a row that
      is not shut down becomes failed. */
  lemma StoreGuards(row: Row, ref: Ref)
    ensures row.status == Pending ==> MarkReady(row, ref).status == Ready && MarkReady(row, ref).ref == ref
    ensures row.status != Pending ==> MarkReady(row, ref) == row
    ensures row.status == Shutdown ==> MarkFailed(row) == row
    ensures row.status != Shutdown ==> MarkFailed(row).status == Failed
    ensures MarkReady(row, ref).resolution == row.resolution && MarkReady(row, ref).owner == row.owner
    ensures MarkFailed(row).resolution == row.resolution && MarkFailed(row).owner == row.owner && MarkFailed(row).ref == row.ref
  {
  }

  // ---- servers are conserved -------------------------------------------------

  ghost predicate Quiescent(s: State) {
    forall c | c in s.calls :: s.calls[c].Finished?
  }

  ghost predicate AllAccounted(s: State) {
    forall r | r in s.up :: Accounted(s, r)
  }

  /** A Deallocate that read its row before the row's MarkReady releases it after. */
  ghost predicate Straddles(s: State, e: Event) {
    && e.Release? && e.reply != Refused
    && At(s, e.call).Releasing?
    && At(s, e.call).seen.status == Pending
    && At(s, e.call).id in s.rows
    && s.rows[At(s, e.call).id].status == Ready
  }

  ghost predicate NoStraddle(s: State, es: seq<Event>) {
    forall i | 0 <= i < |es| :: !Straddles(Run(s, es[..i]), es[i])
  }

  /** A step loses track of a server exactly when it is a straddling release of a server still up. */
  lemma OrphansExactly(s: State, e: Event)
    requires Inv(s)
    ensures Next(s, e).orphaned != s.orphaned <==>
              Straddles(s, e) && s.rows[At(s, e.call).id].ref !in s.freed + s.orphaned
  {
    if e.Release? && e.call in s.calls { assert CallInv(s, e.call); }
  }

  lemma {:induction false} NoStraddleNoOrphan(s: State, es: seq<Event>)
    requires Inv(s) && s.orphaned == {} && NoStraddle(s, es)
    ensures Run(s, es).orphaned == {}
  {
    if es != [] {
      var front := es[..|es| - 1];
      forall i | 0 <= i < |front| ensures !Straddles(Run(s, front[..i]), front[i]) {
        assert front[..i] == es[..i];
        assert !Straddles(Run(s, es[..i]), es[i]);
      }
      NoStraddleNoOrphan(s, front);
      RunKeeps(s, front);
      assert !Straddles(Run(s, es[..|es| - 1]), es[|es| - 1]);
      OrphansExactly(Run(s, front), es[|es| - 1]);
    }
  }

  /** Over every interleaving without a straddling Deallocate, once no call is
      in flight no server is lost. */
  lemma Conservation(s: State, es: seq<Event>)
    requires Initial(s) && NoStraddle(s, es) && Quiescent(Run(s, es))
    ensures AllAccounted(Run(s, es))
  {
    var t := Run(s, es);
    RunKeeps(s, es);
    NoStraddleNoOrphan(s, es);
    forall r | r in t.up ensures Accounted(t, r) {
      assert ServerInv(t, r);
    }
  }

  ghost predicate OrphanInv(s: State) {
    forall r | r in s.orphaned ::
      r in s.up && s.up[r].row in s.rows && s.rows[s.up[r].row].status == Shutdown
  }

  lemma StepOrphans(s: State, e: Event)
    requires Inv(s) && OrphanInv(s)
    ensures OrphanInv(Next(s, e))
  {
    var t := Next(s, e);
    forall r | r in t.orphaned
      ensures r in t.up && t.up[r].row in t.rows && t.rows[t.up[r].row].status == Shutdown
    {
      if r in s.orphaned {
        StepRow(s, e, s.up[r].row);
        UpPersists(s, e);
      } else {
        NewOrphan(s, e, r);
      }
    }
  }

  lemma UpPersists(s: State, e: Event)
    ensures forall r | r in s.up :: r in Next(s, e).up && Next(s, e).up[r] == s.up[r]
  {
  }

  lemma NewOrphan(s: State, e: Event, r: Ref)
    requires Inv(s) && r !in s.orphaned && r in Next(s, e).orphaned
    ensures var t := Next(s, e); r in t.up && t.up[r].row in t.rows && t.rows[t.up[r].row].status == Shutdown
  {
    OnlyReleaseOrphans(s, e);
    assert RowInv(s, At(s, e.call).id);
  }

  lemma OnlyReleaseOrphans(s: State, e: Event)
    ensures Next(s, e).orphaned != s.orphaned ==> e.Release? && At(s, e.call).Releasing? && At(s, e.call).id in s.rows
  {
  }

  lemma {:induction false} RunOrphans(s: State, es: seq<Event>)
    requires Initial(s)
    ensures OrphanInv(Run(s, es))
  {
    if es != [] {
      RunOrphans(s, es[..|es| - 1]);
      RunKeeps(s, es[..|es| - 1]);
      StepOrphans(Run(s, es[..|es| - 1]), es[|es| - 1]);
    }
  }

  /** With no assumption at all: the servers lost at rest are exactly those of
      straddled rows that nothing took down before or since. */
  lemma ConservationExact(s: State, es: seq<Event>, r: Ref)
    requires Initial(s) && Quiescent(Run(s, es)) && r in Run(s, es).up
    ensures var t := Run(s, es);
            !Accounted(t, r) <==> r in t.orphaned && r !in t.freed && r !in t.unfreed
  {
    RunKeeps(s, es);
    RunOrphans(s, es);
    assert ServerInv(Run(s, es), r);
  }

  /** A Deallocate read the pending row 7 while its Allocate waits for the backend. */
  ghost function BothStarted(s: State): State {
    s.(rows := map[7 := Row(Pending, "", "", 0)],
       calls := map[0 := Trying(7, 0), 1 := Stopping(7, Row(Pending, "", "", 0))])
  }

  /** The server is up, and the Deallocate freed the empty reference it had read. */
  ghost function AboutToStraddle(s: State, r: Ref): State {
    s.(rows := map[7 := Row(Pending, "", "", 0)],
       calls := map[0 := Marking(7, r), 1 := Releasing(7, Row(Pending, "", "", 0))],
       up := map[r := Server(7, 0)], closed := {7})
  }

  lemma LosingStart(s: State)
    requires Initial(s)
    ensures AfterRead(AfterOpen(AfterInsert(s, 0, 7, "", Done), 1, 7), 1, true) == BothStarted(s)
  {
    var s1 := AfterInsert(s, 0, 7, "", Done);
    assert s1 == s.(rows := map[7 := Row(Pending, "", "", 0)], calls := map[0 := Trying(7, 0)]);
  }

  lemma LosingMiddle(s: State, r: Ref)
    requires Initial(s) && r != ""
    ensures AfterStop(AfterAttempt(BothStarted(s), 0, Some(r), false), 1, true) == AboutToStraddle(s, r)
  {
    var s4 := AfterAttempt(BothStarted(s), 0, Some(r), false);
    assert s4.up.Keys == {r};
    assert s4.calls == map[0 := Marking(7, r), 1 := Stopping(7, Row(Pending, "", "", 0))];
    assert {""} * s4.up.Keys == {};
  }

  lemma LosingEnd(s: State, r: Ref)
    requires Initial(s)
    ensures var t := AfterRelease(AfterMark(AboutToStraddle(s, r), 0, Done), 1, Done);
            Quiescent(t) && r in t.up && !Accounted(t, r)
  {
    var s6 := AfterMark(AboutToStraddle(s, r), 0, Done);
    assert s6.calls[0] == Finished(true) && s6.rows[7] == Row(Ready, r, "", 0);
  }

  function LosingPrefix(r: Ref): seq<Event> {
    [Insert(0, 7, "", Done), Open(1, 7), Read(1, true), Attempt(0, Some(r), false), Stop(1, true)]
  }

  lemma RunsTo(s: State, es: seq<Event>, e: Event, t: State)
    requires Next(Run(s, es), e) == t
    ensures Run(s, es + [e]) == t
  {
    RunSnoc(s, es, e);
  }

  lemma RunsToTwo(s: State, es: seq<Event>, e1: Event, e2: Event, t1: State, t2: State)
    requires Next(Run(s, es), e1) == t1 && Next(t1, e2) == t2
    ensures Run(s, es + [e1, e2]) == t2
  {
    RunsTo(s, es, e1, t1);
    RunsTo(s, es + [e1], e2, t2);
    assert es + [e1] + [e2] == es + [e1, e2];
  }

  lemma LosingStartRun(s: State, e1: Event, e2: Event, e3: Event)
    requires Initial(s) && e1 == Insert(0, 7, "", Done) && e2 == Open(1, 7) && e3 == Read(1, true)
    ensures Run(s, [e1, e2, e3]) == BothStarted(s)
  {
    LosingStart(s);
    var s1 := AfterInsert(s, 0, 7, "", Done);
    assert [] + [e1] == [e1] && [e1] + [e2, e3] == [e1, e2, e3];
    RunsTo(s, [], e1, s1);
    RunsToTwo(s, [e1], e2, e3, AfterOpen(s1, 1, 7), BothStarted(s));
  }

  lemma LosingPrefixRun(s: State, r: Ref)
    requires Initial(s) && r != ""
    ensures Run(s, LosingPrefix(r)) == AboutToStraddle(s, r)
  {
    var e1, e2, e3, e4, e5 := Insert(0, 7, "", Done), Open(1, 7), Read(1, true), Attempt(0, Some(r), false), Stop(1, true);
    LosingStartRun(s, e1, e2, e3);
    LosingMiddle(s, r);
    RunsToTwo(s, [e1, e2, e3], e4, e5, AfterAttempt(BothStarted(s), 0, Some(r), false), AboutToStraddle(s, r));
    assert [e1, e2, e3] + [e4, e5] == LosingPrefix(r);
  }

  /** The assumption is needed: one Deallocate around one MarkReady loses a server. */
  lemma StraddleLosesServer(s: State, r: Ref)
    requires Initial(s) && r != ""
    ensures var t := Run(s, LosingPrefix(r) + [Mark(0, Done)] + [Release(1, Done)]);
            Quiescent(t) && r in t.up && !Accounted(t, r)
  {
    LosingPrefixRun(s, r);
    RunSnoc(s, LosingPrefix(r), Mark(0, Done));
    RunSnoc(s, LosingPrefix(r) + [Mark(0, Done)], Release(1, Done));
    LosingEnd(s, r);
  }

  // ---- shut down means taken down --------------------------------------------

  /** This event is a successful backend free or resolution clean-up for row id. */
  ghost predicate TakesDown(s: State, e: Event, id: RowId) {
    || (e.Stop? && e.ok && At(s, e.call).Stopping? && At(s, e.call).id == id)
    || (e.Cleanup? && e.verdict == Cleaned && At(s, e.call).Resolving? && At(s, e.call).id == id)
  }

  lemma {:induction false} ClosedWasTakenDown(s: State, es: seq<Event>, id: RowId) returns (i: nat)
    requires id in Run(s, es).closed && id !in s.closed
    ensures i < |es| && TakesDown(Run(s, es[..i]), es[i], id)
  {
    var n := |es| - 1;
    if id in Run(s, es[..n]).closed {
      i := ClosedWasTakenDown(s, es[..n], id);
      assert es[..n][..i] == es[..i];
    } else {
      i := n;
    }
  }

  /** A row is shut down only after its server was freed or its resolution cleaned up. */
  lemma ShutdownOnlyAfterTakeDown(s: State, es: seq<Event>, id: RowId)
    requires Initial(s) && id in Run(s, es).rows && Run(s, es).rows[id].status == Shutdown
    ensures exists i | 0 <= i < |es| :: TakesDown(Run(s, es[..i]), es[i], id)
  {
    RunKeeps(s, es);
    assert RowInv(Run(s, es), id);
    var i := ClosedWasTakenDown(s, es, id);
  }

  /** A server counts as freed only by an answer that says so, and as not freed
      only by a clean-up free that failed. */
  lemma FreedStep(s: State, e: Event, r: Ref)
    ensures r in Next(s, e).freed && r !in s.freed ==>
              (e.Free? && e.ok && At(s, e.call).Freeing? && At(s, e.call).ref == r)
              || (e.Stop? && e.ok && At(s, e.call).Stopping? && At(s, e.call).seen.ref == r)
              || (e.Cleanup? && e.verdict == Cleaned && At(s, e.call).Resolving?
                  && r in s.up && s.up[r].row in s.rows && s.rows[s.up[r].row].resolution == At(s, e.call).seen.resolution)
    ensures r in Next(s, e).unfreed && r !in s.unfreed ==>
              e.Free? && !e.ok && At(s, e.call).Freeing? && At(s, e.call).ref == r
  {
  }

  /** The answer that took a freed server down. */
  lemma {:induction false} FreedByAnswer(s: State, es: seq<Event>, r: Ref) returns (i: nat)
    requires Initial(s) && r in Run(s, es).freed
    ensures i < |es|
    ensures (es[i].Free? && es[i].ok) || (es[i].Stop? && es[i].ok) || (es[i].Cleanup? && es[i].verdict == Cleaned)
  {
    i := |es| - 1;
    FreedStep(Run(s, es[..i]), es[i], r);
    if r in Run(s, es[..i]).freed { i := FreedByAnswer(s, es[..i], r); }
  }

  // ---- Deallocate on its own --------------------------------------------------

  datatype Answers = Answers(read: bool, verdict: Verdict, stop: bool, release: Reply)

  /** One Deallocate with nothing in between; answers it never asks for are ignored. */
  function Alone(s: State, c: CallId, id: RowId, a: Answers): State {
    AfterRelease(AfterStop(AfterCleanup(AfterRead(AfterOpen(s, c, id), c, a.read), c, a.verdict), c, a.stop), c, a.release)
  }

  /** The backend takes the row's resources down under these answers. */
  predicate Frees(row: Row, a: Answers) {
    if row.resolution == "" then a.stop
    else a.verdict == Cleaned || ((a.verdict == Unsupported || a.verdict == TemplateGone) && row.ref != "" && a.stop)
  }

  lemma GotoTwice(s: State, c: CallId, a: Call, b: Call)
    ensures Goto(Goto(s, c, a), c, b) == Goto(s, c, b)
  {
  }

  lemma AloneReads(s: State, c: CallId, id: RowId, read: bool)
    requires c !in s.calls
    ensures AfterRead(AfterOpen(s, c, id), c, read) ==
            Goto(s, c, if !read || id !in s.rows then Finished(false)
                       else if Closed(s.rows[id]) then Finished(true)
                       else if s.rows[id].resolution != "" then Resolving(id, s.rows[id])
                       else Stopping(id, s.rows[id]))
  {
    GotoTwice(s, c, Reading(id), AfterRead(AfterOpen(s, c, id), c, read).calls[c]);
  }

  lemma AloneFrees(s: State, c: CallId, id: RowId, row: Row, a: Answers)
    requires At(s, c) == if row.resolution != "" then Resolving(id, row) else Stopping(id, row)
    ensures var t := AfterStop(AfterCleanup(s, c, a.verdict), c, a.stop);
            && t.rows == s.rows
            && t.calls == s.calls[c := if Frees(row, a) then Releasing(id, row) else Finished(false)]
  {
    var s3 := AfterCleanup(s, c, a.verdict);
    var s4 := AfterStop(s3, c, a.stop);
    if row.resolution != "" {
      assert s3.calls == s.calls[c := At(s3, c)];
    } else {
      assert s3 == s;
    }
    assert s4.calls == s3.calls[c := At(s4, c)];
  }

  /** Deallocate succeeds exactly when it should, changes the row only to shut
      it down, and then only after the resources are down. */
  lemma AloneOutcome(s: State, c: CallId, id: RowId, a: Answers)
    requires c !in s.calls
    ensures var t := Alone(s, c, id, a);
            var due := a.read && id in s.rows && s.rows[id].status != Shutdown
                       && (s.rows[id].status == Failed ==> s.rows[id].resolution != "");
            && t.calls == s.calls[c := Finished(a.read && id in s.rows && (due ==> Frees(s.rows[id], a) && a.release == Done))]
            && t.rows == (if due && Frees(s.rows[id], a) && a.release != Refused
                          then s.rows[id := s.rows[id].(status := Shutdown)] else s.rows)
            && (!due ==> t == Goto(s, c, At(t, c)))
  {
    AloneReads(s, c, id, a.read);
    if a.read && id in s.rows && !Closed(s.rows[id]) {
      var s2 := AfterRead(AfterOpen(s, c, id), c, a.read);
      AloneFrees(s2, c, id, s.rows[id], a);
      var t := Alone(s, c, id, a);
      assert t.calls == s.calls[c := t.calls[c]];
    }
  }

  /** A failing Deallocate leaves every row unchanged, unless its own release
      was applied and only the answer was lost. */
  lemma FailureChangesNothing(s: State, c: CallId, id: RowId, a: Answers)
    requires c !in s.calls && At(Alone(s, c, id, a), c) != Finished(true)
    ensures var t := Alone(s, c, id, a);
            t.rows != s.rows <==> (
              && a.read && id in s.rows && Frees(s.rows[id], a) && a.release == Lost
              && s.rows[id].status != Shutdown && (s.rows[id].status == Failed ==> s.rows[id].resolution != ""))
  {
    AloneOutcome(s, c, id, a);
  }

  /** Deallocate called again and again, under fresh call identifiers. */
  function Again(s: State, c: CallId, id: RowId, tries: seq<Answers>): State
    decreases |tries|
  {
    if tries == [] then s else Again(Alone(s, c, id, tries[0]), c + 1, id, tries[1..])
  }

  lemma {:induction false} StaysClosed(s: State, c: CallId, id: RowId, tries: seq<Answers>)
    requires forall x | x in s.calls :: x < c
    requires id in s.rows && (s.rows[id].status == Shutdown || (s.rows[id].status == Failed && s.rows[id].resolution == ""))
    ensures var t := Again(s, c, id, tries);
            t.rows == s.rows && t.freed == s.freed && t.closed == s.closed && t.orphaned == s.orphaned
    decreases |tries|
  {
    if tries != [] {
      AloneOutcome(s, c, id, tries[0]);
      StaysClosed(Alone(s, c, id, tries[0]), c + 1, id, tries[1..]);
    }
  }

  /** One such call, seen from its row. */
  lemma AloneRow(s: State, c: CallId, id: RowId, a: Answers)
    requires (forall x | x in s.calls :: x < c) && id in s.rows
    ensures var t := Alone(s, c, id, a);
            && (forall x | x in t.calls :: x < c + 1)
            && id in t.rows && (Closed(s.rows[id]) || !Closed(t.rows[id]) ==> t.rows == s.rows)
            && (Closed(t.rows[id]) && !Closed(s.rows[id]) ==> t.rows == s.rows[id := s.rows[id].(status := Shutdown)])
            && (a.read && Frees(s.rows[id], a) && a.release != Refused ==> Closed(t.rows[id]))
  {
    AloneOutcome(s, c, id, a);
  }

  /** Any finite run of failures followed by one working call closes the row,
      and whatever comes after changes nothing. */
  lemma {:induction false} EventuallyClosed(s: State, c: CallId, id: RowId, tries: seq<Answers>, k: nat)
    requires forall x | x in s.calls :: x < c
    requires id in s.rows && k < |tries|
    requires tries[k].read && Frees(s.rows[id], tries[k]) && tries[k].release != Refused
    ensures var t := Again(s, c, id, tries);
            && id in t.rows && (t.rows[id].status == Shutdown || (t.rows[id].status == Failed && t.rows[id].resolution == ""))
            && t.rows == (if Closed(s.rows[id]) then s.rows else s.rows[id := s.rows[id].(status := Shutdown)])
    decreases |tries|
  {
    var t := Alone(s, c, id, tries[0]);
    AloneRow(s, c, id, tries[0]);
    if Closed(t.rows[id]) {
      StaysClosed(t, c + 1, id, tries[1..]);
    } else {
      EventuallyClosed(t, c + 1, id, tries[1..], k - 1);
    }
  }
}
