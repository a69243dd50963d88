/** Deallocate among any other calls: what its own requests do to the rows, and
    what its success means for good. */
module FleetDeallocate {
  import opened Wrappers
  import opened FleetMachine
  import opened FleetSafety

  /** The call is a Deallocate, of this row only. */
  predicate Deallocates(es: seq<Event>, c: CallId, id: RowId) {
    forall i | 0 <= i < |es| && es[i].call == c :: !es[i].Insert? && (es[i].Open? ==> es[i].id == id)
  }

  /** The call stands where a Deallocate of the row may stand. */
  predicate OnWay(x: Call, id: RowId) {
    match x
    case Reading(i) => i == id
    case Resolving(i, _) => i == id
    case Stopping(i, _) => i == id
    case Releasing(i, _) => i == id
    case Finished(_) => true
    case _ => false
  }

  /** How often requests of the call changed the rows. */
  function OwnChanges(s: State, es: seq<Event>, c: CallId): nat {
    if es == [] then 0
    else
      var t, e := Run(s, es[..|es| - 1]), es[|es| - 1];
      OwnChanges(s, es[..|es| - 1], c) + if e.call == c && Next(t, e).rows != t.rows then 1 else 0
  }

  /** The only request of a Deallocate that changes a row is a release that is
      applied, and then the call is over. */
  lemma OwnStep(s: State, e: Event, id: RowId)
    requires OnWay(At(s, e.call), id) && !e.Insert? && (e.Open? ==> e.id == id)
    ensures var t := Next(s, e);
            && OnWay(At(t, e.call), id)
            && (t.rows != s.rows ==>
                  e.Release? && e.reply != Refused && !At(s, e.call).Finished? && At(t, e.call) == Finished(e.reply == Done)
                  && t.rows == s.rows[id := s.rows[id].(status := Shutdown)])
            && (At(s, e.call).Finished? && e.call in s.calls ==> At(t, e.call) == At(s, e.call))
  {
  }

  lemma OtherStep(s: State, e: Event, c: CallId)
    requires e.call != c
    ensures At(Next(s, e), c) == At(s, c) && (c in Next(s, e).calls <==> c in s.calls)
  {
  }

  lemma FrontDeallocates(es: seq<Event>, c: CallId, id: RowId)
    requires es != [] && Deallocates(es, c, id)
    ensures Deallocates(es[..|es| - 1], c, id)
  {
  }

  lemma {:induction false} StaysOnWay(s: State, es: seq<Event>, c: CallId, id: RowId)
    requires c !in s.calls && Deallocates(es, c, id)
    ensures OnWay(At(Run(s, es), c), id)
    ensures OwnChanges(s, es, c) <= 1 && (OwnChanges(s, es, c) == 1 ==> c in Run(s, es).calls && At(Run(s, es), c).Finished?)
    ensures OwnChanges(s, es, c) == 1 ==> At(Run(s, es), c) == Finished(true) || Release(c, Lost) in es
  {
    if es != [] {
      var front, e := es[..|es| - 1], es[|es| - 1];
      FrontDeallocates(es, c, id);
      StaysOnWay(s, front, c, id);
      if e.call == c { OwnStep(Run(s, front), e, id); } else { OtherStep(Run(s, front), e, c); }
      assert es == front + [e];
    }
  }

  /** In every interleaving a Deallocate that failed has changed no row, unless
      its own release was applied and only the answer was lost; one still
      running has changed none at all. */
  lemma FailureInRun(s: State, es: seq<Event>, c: CallId, id: RowId)
    requires c !in s.calls && Deallocates(es, c, id)
    ensures At(Run(s, es), c) != Finished(true) && Release(c, Lost) !in es ==> OwnChanges(s, es, c) == 0
    ensures c in Run(s, es).calls && !At(Run(s, es), c).Finished? ==> OwnChanges(s, es, c) == 0
  {
    StaysOnWay(s, es, c, id);
  }

  lemma ClosedStep(s: State, e: Event, id: RowId)
    requires id in s.rows && Closed(s.rows[id])
    ensures id in Next(s, e).rows && Closed(Next(s, e).rows[id])
  {
  }

  /** A closed row stays closed, whatever calls run. */
  lemma {:induction false} ClosedForGood(s: State, es: seq<Event>, id: RowId)
    requires id in s.rows && (s.rows[id].status == Shutdown || (s.rows[id].status == Failed && s.rows[id].resolution == ""))
    ensures id in Run(s, es).rows && (Run(s, es).rows[id].status == Shutdown || (Run(s, es).rows[id].status == Failed && Run(s, es).rows[id].resolution == ""))
  {
    if es != [] {
      ClosedForGood(s, es[..|es| - 1], id);
      ClosedStep(Run(s, es[..|es| - 1]), es[|es| - 1], id);
    }
  }

  /** A Deallocate comes to its success only by finding or making its row closed. */
  lemma SuccessStep(s: State, e: Event, id: RowId)
    requires Inv(s) && OnWay(At(s, e.call), id) && At(s, e.call) != Finished(true) && !e.Insert?
    ensures At(Next(s, e), e.call) == Finished(true) ==> id in Next(s, e).rows && Closed(Next(s, e).rows[id])
  {
    if e.call in s.calls { assert CallInv(s, e.call); }
  }

  /** In every interleaving one Deallocate that succeeds, before or after any
      failures, leaves its row closed at the end of the run. */
  lemma {:induction false} OneSuccessCloses(s: State, es: seq<Event>, c: CallId, id: RowId)
    requires Inv(s) && c !in s.calls && Deallocates(es, c, id) && At(Run(s, es), c) == Finished(true)
    ensures id in Run(s, es).rows && (Run(s, es).rows[id].status == Shutdown || (Run(s, es).rows[id].status == Failed && Run(s, es).rows[id].resolution == ""))
  {
    if es != [] {
      var front, e := es[..|es| - 1], es[|es| - 1];
      var t := Run(s, front);
      FrontDeallocates(es, c, id);
      if At(t, c) == Finished(true) {
        OneSuccessCloses(s, front, c, id);
        ClosedStep(t, e, id);
      } else {
        RunKeeps(s, front);
        StaysOnWay(s, front, c, id);
        if e.call == c { SuccessStep(t, e, id); } else { OtherStep(t, e, c); }
      }
    }
  }
}
