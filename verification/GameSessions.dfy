/** Creation of game sessions under the per-project caps. One attempt is a
    transaction of four steps: begin (which fixes what the database takes for
    "now"), take the project's advisory lock, count the open sessions, insert and
    commit. A join checks the expiry of its session under the row lock and then
    extends it; a heartbeat begins a transaction and then extends what was live
    at that instant. All of them interleave with each other, with the clock, and
    with the operations that end or delete sessions. An event that the state does
    not allow leaves it alone. */
module GameSessions {
  import opened Wrappers
  import opened Sets
  import opened Quota

  type ProjectId = nat
  type SessionId = nat
  type PlayerId = nat
  type CallId = nat

  const MAX_PLAYERS_LIMIT := 64
  const DEFAULT_MAX_PLAYERS := 2
  const JOIN_CODE_MAX_ATTEMPTS := 5
  const SECOND: int := 1_000_000_000

  /** A heartbeat extends a session only if the new expiry lies further than this
      past the old one. */
  const HEARTBEAT_MARGIN: int := 30 * 60 * SECOND

  datatype Addr = Addr(ip: string, port: int)

  datatype Member = Member(player: PlayerId, addr: Option<Addr>)

  datatype Session = Session(
    project: ProjectId,
    code: string,
    maxPlayers: int,
    ended: bool,
    expires: int,
    peers: map<PlayerId, Option<Addr>>)

  datatype Call =
    | Begun(project: ProjectId, at: int)
    | Locked(project: ProjectId, at: int)
    | Counted(project: ProjectId, at: int)

  /** A join that has checked its session, or a heartbeat whose transaction has begun. */
  datatype Extension =
    | Joining(session: SessionId, at: int)
    | Beating(at: int)

  /** limits: the class limit of each project whose tenant is enforced. */
  datatype State = State(
    now: int,
    limits: map<ProjectId, int>,
    sessions: map<SessionId, Session>,
    calls: map<CallId, Call>,
    extensions: map<CallId, Extension>)

  datatype Event =
    | Tick(elapsed: nat)
    | Begin(call: CallId, project: ProjectId)
    | Lock(call: CallId)
    | Count(call: CallId)
    | Insert(call: CallId, id: SessionId, session: Session)
    | Abort(call: CallId)
    | End(id: SessionId)
    | CheckJoin(call: CallId, id: SessionId)
    | ExtendJoin(call: CallId, until: int)
    | BeginBeat(call: CallId)
    | Beat(call: CallId, id: SessionId, until: int)
    | Drop(call: CallId)
    | Collect(at: int)

  /** A stored limit is a count or unlimited. */
  ghost predicate Initial(s: State) {
    s.sessions == map[] && s.calls == map[] && s.extensions == map[] && forall p | p in s.limits :: UNLIMITED <= s.limits[p]
  }

  // ---- what counts ---------------------------------------------------------------------

  predicate LiveAt(x: Session, at: int) { !x.ended && at < x.expires }

  /** Sessions a count made at the instant finds open. */
  function OpenAt(s: State, p: ProjectId, at: int): set<SessionId> {
    set id | id in s.sessions && s.sessions[id].project == p && LiveAt(s.sessions[id], at)
  }

  function Open(s: State, p: ProjectId): set<SessionId> { OpenAt(s, p, s.now) }

  /** checkOpenSessionLimit: the hard cap for everyone, then the class limit of
      an enforced tenant. */
  predicate Admits(s: State, p: ProjectId, count: nat) {
    && count < SESSIONS_HARD_CAP
    && (p in s.limits && s.limits[p] != UNLIMITED ==> count < s.limits[p])
  }

  /** So many sessions are allowed to be open. */
  ghost predicate WithinCaps(s: State, p: ProjectId, count: nat) {
    && count <= SESSIONS_HARD_CAP
    && (p in s.limits && s.limits[p] != UNLIMITED ==> count <= s.limits[p])
  }

  predicate CodeTaken(s: State, code: string) {
    exists id :: id in s.sessions && s.sessions[id].code == code
  }

  predicate UniqueViolation(s: State, id: SessionId, code: string) {
    id in s.sessions || CodeTaken(s, code)
  }

  predicate HoldsLock(s: State, c: CallId) { c in s.calls && !s.calls[c].Begun? }

  predicate LockFree(s: State, p: ProjectId) {
    forall c | c in s.calls && HoldsLock(s, c) :: s.calls[c].project != p
  }

  // ---- one step ------------------------------------------------------------------------

  function Goto(s: State, c: CallId, x: Call): State { s.(calls := s.calls[c := x]) }

  function Forget(s: State, c: CallId): State { s.(calls := s.calls - {c}) }

  function AfterCount(s: State, c: CallId): State
    requires c in s.calls && s.calls[c].Locked?
  {
    var Locked(p, at) := s.calls[c];
    if Admits(s, p, |OpenAt(s, p, at)|) then Goto(s, c, Counted(p, at)) else Forget(s, c)
  }

  /** The insert with its roster, and the commit: a taken join code or id is a
      unique violation, which rolls back. */
  function AfterInsert(s: State, c: CallId, id: SessionId, x: Session): State {
    if UniqueViolation(s, id, x.code) then Forget(s, c) else Forget(s, c).(sessions := s.sessions[id := x])
  }

  function Longest(a: int, b: int): int { if a < b then b else a }

  function AfterExtend(s: State, id: SessionId, until: int): State
    requires id in s.sessions
  {
    s.(sessions := s.sessions[id := s.sessions[id].(expires := Longest(s.sessions[id].expires, until))])
  }

  /** A join holds the row lock of the session. */
  predicate Held(s: State, id: SessionId) {
    exists c :: c in s.extensions && s.extensions[c].Joining? && s.extensions[c].session == id
  }

  /** The session that the statement extends, if there is one. */
  function Target(s: State, e: Event): Option<SessionId> {
    match e
    case ExtendJoin(c, _) =>
      if c in s.extensions && s.extensions[c].Joining? && s.extensions[c].session in s.sessions
      then Some(s.extensions[c].session) else None
    case Beat(c, id, until) =>
      if c in s.extensions && s.extensions[c].Beating? && id in s.sessions && !Held(s, id)
         && LiveAt(s.sessions[id], s.extensions[c].at) && s.sessions[id].expires < until - HEARTBEAT_MARGIN
      then Some(id) else None
    case _ => None
  }

  function AfterExtension(s: State, e: Event, c: CallId): State
    requires e.ExtendJoin? || e.Beat?
  {
    match Target(s, e)
    case Some(id) => AfterExtend(s, id, e.until).(extensions := s.extensions - {c})
    case None => s
  }

  function Next(s: State, e: Event): State {
    match e
    case Tick(d) => s.(now := s.now + d)
    case Begin(c, p) => if c in s.calls then s else Goto(s, c, Begun(p, s.now))
    case Lock(c) =>
      if c in s.calls && s.calls[c].Begun? && LockFree(s, s.calls[c].project)
      then Goto(s, c, Locked(s.calls[c].project, s.calls[c].at)) else s
    case Count(c) => if c in s.calls && s.calls[c].Locked? then AfterCount(s, c) else s
    case Insert(c, id, x) =>
      if c in s.calls && s.calls[c].Counted? && x.project == s.calls[c].project then AfterInsert(s, c, id, x) else s
    case Abort(c) => Forget(s, c)
    case End(id) =>
      if id in s.sessions && !Held(s, id) then s.(sessions := s.sessions[id := s.sessions[id].(ended := true)]) else s
    case CheckJoin(c, id) =>
      if c in s.extensions || id !in s.sessions || Held(s, id) || s.sessions[id].ended || s.sessions[id].expires < s.now then s
      else s.(extensions := s.extensions[c := Joining(id, s.now)])
    case BeginBeat(c) => if c in s.extensions then s else s.(extensions := s.extensions[c := Beating(s.now)])
    case ExtendJoin(c, until) => AfterExtension(s, e, c)
    case Beat(c, _, until) => AfterExtension(s, e, c)
    case Drop(c) => s.(extensions := s.extensions - {c})
    case Collect(at) =>
      if at <= s.now && forall id | id in s.sessions && s.sessions[id].expires < at :: !Held(s, id) then s.(sessions := map id | id in s.sessions && at <= s.sessions[id].expires :: s.sessions[id]) else s
  }

  function Run(s: State, es: seq<Event>): State {
    if es == [] then s else Next(Run(s, es[..|es| - 1]), es[|es| - 1])
  }

  // ---- safety --------------------------------------------------------------------------

  /** The extension lands on a session whose expiry has passed. */
  predicate Revives(s: State, e: Event) {
    && Target(s, e).Some? && Target(s, e).value in s.sessions
    && !LiveAt(s.sessions[Target(s, e).value], s.now)
    && LiveAt(AfterExtend(s, Target(s, e).value, e.until).sessions[Target(s, e).value], s.now)
  }

  predicate NoRevival(s: State, es: seq<Event>) {
    forall i | 0 <= i < |es| :: !Revives(Run(s, es[..i]), es[i])
  }

  ghost predicate Capped(s: State) {
    forall p: ProjectId :: WithinCaps(s, p, |Open(s, p)|)
  }

  ghost predicate CallInv(s: State, c: CallId)
    requires c in s.calls
  {
    && s.calls[c].at <= s.now
    && (s.calls[c].Counted? ==> Admits(s, s.calls[c].project, |Open(s, s.calls[c].project)|))
  }

  /** What a join has checked still stands but for the clock. */
  ghost predicate ExtensionInv(s: State, c: CallId)
    requires c in s.extensions
  {
    && s.extensions[c].at <= s.now
    && (s.extensions[c].Joining? ==>
          && s.extensions[c].session in s.sessions
          && !s.sessions[s.extensions[c].session].ended && s.extensions[c].at <= s.sessions[s.extensions[c].session].expires)
  }

  ghost predicate Exclusive(s: State) {
    forall c, d | HoldsLock(s, c) && HoldsLock(s, d) && s.calls[c].project == s.calls[d].project :: c == d
  }

  ghost predicate UniqueCodes(s: State) {
    forall a, b | a in s.sessions && b in s.sessions && s.sessions[a].code == s.sessions[b].code :: a == b
  }

  ghost predicate Inv(s: State) {
    && Capped(s) && (forall c | c in s.calls :: CallInv(s, c)) && Exclusive(s) && UniqueCodes(s)
    && (forall c | c in s.extensions :: ExtensionInv(s, c))
  }

  /** No project gains an open session, and no call gains a lock. */
  lemma ShrinkKeeps(s: State, t: State)
    requires Inv(s) && t.limits == s.limits && s.now <= t.now && UniqueCodes(t)
    requires forall p: ProjectId :: Open(t, p) <= Open(s, p)
    requires forall c | c in t.calls :: c in s.calls && t.calls[c] == s.calls[c]
    requires forall c | c in t.extensions :: ExtensionInv(t, c)
    ensures Inv(t)
  {
    forall p: ProjectId ensures |Open(t, p)| <= |Open(s, p)| { SubsetSize(Open(t, p), Open(s, p)); }
    forall c | c in t.calls ensures CallInv(t, c) { assert CallInv(s, c); }
    assert forall c :: HoldsLock(t, c) ==> HoldsLock(s, c);
  }

  lemma GotoKeeps(s: State, c: CallId, x: Call)
    requires Inv(s) && x.at <= s.now
    requires !x.Begun? ==> (forall d | HoldsLock(s, d) && s.calls[d].project == x.project :: d == c)
    requires x.Counted? ==> Admits(s, x.project, |Open(s, x.project)|)
    ensures Inv(Goto(s, c, x))
  {
    var t := Goto(s, c, x);
    forall p: ProjectId ensures Open(t, p) == Open(s, p) {}
    forall d | d in t.calls ensures CallInv(t, d) { if d != c { assert CallInv(s, d); } }
    assert forall d :: d != c ==> HoldsLock(t, d) == HoldsLock(s, d);
  }

  lemma CountKeeps(s: State, c: CallId)
    requires Inv(s) && c in s.calls && s.calls[c].Locked?
    ensures Inv(AfterCount(s, c))
  {
    var Locked(p, at) := s.calls[c];
    assert CallInv(s, c);
    SubsetSize(Open(s, p), OpenAt(s, p, at));
    if Admits(s, p, |OpenAt(s, p, at)|) { GotoKeeps(s, c, Counted(p, at)); } else { ForgetKeeps(s, c); }
  }

  lemma ForgetKeeps(s: State, c: CallId)
    requires Inv(s)
    ensures Inv(Forget(s, c))
  {
    forall p: ProjectId ensures Open(Forget(s, c), p) == Open(s, p) {}
    ShrinkKeeps(s, Forget(s, c));
  }

  lemma InsertKeeps(s: State, c: CallId, id: SessionId, x: Session)
    requires Inv(s) && c in s.calls && s.calls[c].Counted? && x.project == s.calls[c].project
    ensures Inv(AfterInsert(s, c, id, x))
  {
    if UniqueViolation(s, id, x.code) {
      ForgetKeeps(s, c);
    } else {
      var t := AfterInsert(s, c, id, x);
      assert CallInv(s, c);
      forall p: ProjectId ensures WithinCaps(t, p, |Open(t, p)|) && (p != x.project ==> Open(t, p) == Open(s, p)) {
        InsertOpens(s, c, id, x, p);
        assert WithinCaps(s, p, |Open(s, p)|);
      }
      InsertKeepsCalls(s, c, id, x);
    }
  }

  lemma InsertOpens(s: State, c: CallId, id: SessionId, x: Session, p: ProjectId)
    requires !UniqueViolation(s, id, x.code)
    ensures var t := AfterInsert(s, c, id, x);
            Open(t, p) == (if p == x.project && LiveAt(x, s.now) then Open(s, p) + {id} else Open(s, p)) && id !in Open(s, p)
  {
  }

  lemma InsertKeepsCalls(s: State, c: CallId, id: SessionId, x: Session)
    requires Inv(s) && c in s.calls && s.calls[c].Counted? && x.project == s.calls[c].project
    requires !UniqueViolation(s, id, x.code)
    requires forall p: ProjectId | p != x.project :: Open(AfterInsert(s, c, id, x), p) == Open(s, p)
    ensures var t := AfterInsert(s, c, id, x); (forall d | d in t.calls :: CallInv(t, d)) && Exclusive(t)
  {
    var t := AfterInsert(s, c, id, x);
    forall d | d in t.calls ensures CallInv(t, d) {
      assert CallInv(s, d) && HoldsLock(s, c);
      assert HoldsLock(s, d) ==> s.calls[d].project != x.project;
    }
    assert forall d :: HoldsLock(t, d) ==> HoldsLock(s, d);
  }

  lemma ExtensionsKeep(s: State, t: State)
    requires forall c | c in s.extensions :: ExtensionInv(s, c)
    requires s.now <= t.now && t.extensions == s.extensions
    requires forall id | id in s.sessions && Held(s, id) :: id in t.sessions && t.sessions[id] == s.sessions[id]
    ensures forall c | c in t.extensions :: ExtensionInv(t, c)
  {
    forall c | c in t.extensions ensures ExtensionInv(t, c) {
      assert ExtensionInv(s, c);
      if s.extensions[c].Joining? { assert Held(s, s.extensions[c].session); }
    }
  }

  lemma ExtendKeeps(s: State, e: Event)
    requires Inv(s) && (e.ExtendJoin? || e.Beat?) && !Revives(s, e)
    ensures Inv(Next(s, e))
  {
    var t := Next(s, e);
    if Target(s, e).Some? {
      var id := Target(s, e).value;
      forall p: ProjectId ensures Open(t, p) == Open(s, p) {}
      forall c | c in t.extensions ensures ExtensionInv(t, c) { assert ExtensionInv(s, c); }
      ShrinkKeeps(s, t);
    }
  }

  /** A revival adds exactly one open session, count or no count. */
  lemma RevivalAddsOne(s: State, e: Event, p: ProjectId)
    requires Revives(s, e)
    ensures |Open(Next(s, e), p)| == |Open(s, p)| + if p == s.sessions[Target(s, e).value].project then 1 else 0
  {
    var t, id := Next(s, e), Target(s, e).value;
    assert id !in Open(s, p);
    assert Open(t, p) == if p == s.sessions[id].project then Open(s, p) + {id} else Open(s, p);
  }

  /** A revived session had not run out when its join checked it, or when its
      heartbeat began: it ran out in between. */
  lemma RevivalOvertaken(s: State, e: Event)
    requires Inv(s) && Revives(s, e)
    ensures e.call in s.extensions && s.extensions[e.call].at <= s.sessions[Target(s, e).value].expires <= s.now
  {
    assert ExtensionInv(s, e.call);
  }

  /** Which statement extends which session: a join the one it checked, and a
      heartbeat one that was live when its transaction began and has less than
      half an hour of its new hour behind it. */
  lemma ExtendsIff(s: State, e: Event, id: SessionId)
    ensures Target(s, e) == Some(id) <==>
              || (e.ExtendJoin? && e.call in s.extensions && s.extensions[e.call].Joining? && s.extensions[e.call].session == id
                  && id in s.sessions)
              || (e.Beat? && e.id == id && e.call in s.extensions && s.extensions[e.call].Beating? && id in s.sessions
                  && (forall c | c in s.extensions && s.extensions[c].Joining? :: s.extensions[c].session != id)
                  && !s.sessions[id].ended && s.extensions[e.call].at < s.sessions[id].expires
                  && s.sessions[id].expires + 1_800_000_000_000 < e.until)
  {
  }

  /** An ended session frees its place, and only its own. */
  lemma EndFrees(s: State, id: SessionId, p: ProjectId)
    requires id in s.sessions && !Held(s, id)
    ensures Open(Next(s, End(id)), p) == Open(s, p) - {id}
  {
  }

  lemma EndKeeps(s: State, id: SessionId)
    requires Inv(s)
    ensures Inv(Next(s, End(id)))
  {
    var t := Next(s, End(id));
    forall p: ProjectId ensures Open(t, p) <= Open(s, p) {}
    ExtensionsKeep(s, t);
    ShrinkKeeps(s, t);
  }

  lemma CollectKeeps(s: State, at: int)
    requires Inv(s)
    ensures Inv(Next(s, Collect(at)))
  {
    var t := Next(s, Collect(at));
    forall p: ProjectId ensures Open(t, p) <= Open(s, p) {}
    ExtensionsKeep(s, t);
    ShrinkKeeps(s, t);
  }

  lemma TickKeeps(s: State, d: nat)
    requires Inv(s)
    ensures Inv(Next(s, Tick(d)))
  {
    var t := Next(s, Tick(d));
    forall p: ProjectId ensures Open(t, p) <= Open(s, p) {}
    ExtensionsKeep(s, t);
    ShrinkKeeps(s, t);
  }

  lemma CheckKeeps(s: State, e: Event)
    requires Inv(s) && (e.CheckJoin? || e.BeginBeat? || e.Drop?)
    ensures Inv(Next(s, e))
  {
    var t := Next(s, e);
    forall p: ProjectId ensures Open(t, p) == Open(s, p) {}
    forall c | c in t.extensions ensures ExtensionInv(t, c) { if c in s.extensions { assert ExtensionInv(s, c); } }
    ShrinkKeeps(s, t);
  }

  lemma StepKeeps(s: State, e: Event)
    requires Inv(s) && !Revives(s, e)
    ensures Inv(Next(s, e))
  {
    match e
    case Tick(d) => TickKeeps(s, d);
    case Begin(c, p) => if c !in s.calls { GotoKeeps(s, c, Begun(p, s.now)); }
    case Lock(c) =>
      if c in s.calls && s.calls[c].Begun? && LockFree(s, s.calls[c].project) {
        assert CallInv(s, c);
        GotoKeeps(s, c, Locked(s.calls[c].project, s.calls[c].at));
      }
    case Count(c) => if c in s.calls && s.calls[c].Locked? { CountKeeps(s, c); }
    case Insert(c, id, x) =>
      if c in s.calls && s.calls[c].Counted? && x.project == s.calls[c].project { InsertKeeps(s, c, id, x); }
    case Abort(c) => ForgetKeeps(s, c);
    case End(id) => EndKeeps(s, id);
    case ExtendJoin(_, _) => ExtendKeeps(s, e);
    case Beat(_, _, _) => ExtendKeeps(s, e);
    case CheckJoin(_, _) => CheckKeeps(s, e);
    case BeginBeat(_) => CheckKeeps(s, e);
    case Drop(_) => CheckKeeps(s, e);
    case Collect(at) => CollectKeeps(s, at);
  }

  /** One step from a state of a run without revivals breaks the caps if and only
      if it revives an expired session of a project that admits no more. */
  lemma StepExactly(s: State, e: Event)
    requires Inv(s)
    ensures Capped(Next(s, e)) <==> !(Revives(s, e) && Full(s, s.sessions[Target(s, e).value].project))
  {
    if Revives(s, e) {
      var t := Next(s, e);
      var q := s.sessions[Target(s, e).value].project;
      forall p: ProjectId ensures |Open(t, p)| == |Open(s, p)| + if p == q then 1 else 0 {
        RevivalAddsOne(s, e, p);
      }
      assert WithinCaps(s, q, |Open(s, q)|);
      assert WithinCaps(t, q, |Open(t, q)|) <==> Admits(s, q, |Open(s, q)|);
    } else {
      StepKeeps(s, e);
    }
  }

  /** The project admits no more sessions. */
  predicate Full(s: State, p: ProjectId) { !Admits(s, p, |Open(s, p)|) }

  // ---- a run that breaks a cap ---------------------------------------------------------

  /** One event more of a fixed sequence. */
  lemma RunsTo(s: State, es: seq<Event>, i: nat, t: State, u: State)
    requires i < |es| && Run(s, es[..i]) == t && Next(t, es[i]) == u
    ensures Run(s, es[..i + 1]) == u
  {
    assert es[..i + 1][..i] == es[..i];
  }

  function One(p: ProjectId, code: string, expires: int): Session {
    Session(p, code, DEFAULT_MAX_PLAYERS, false, expires, map[])
  }

  /** The lock and the count of a creation that is admitted. */
  lemma Counts(s: State, es: seq<Event>, i: nat, p: ProjectId, t: State)
    requires i + 3 <= |es| && Run(s, es[..i]) == t && t.calls == map[] && Admits(t, p, |Open(t, p)|)
    requires es[i] == Begin(0, p) && es[i + 1] == Lock(0) && es[i + 2] == Count(0)
    ensures Run(s, es[..i + 3]) == Goto(t, 0, Counted(p, t.now))
  {
    var t1, t2, t3 := Goto(t, 0, Begun(p, t.now)), Goto(t, 0, Locked(p, t.now)), Goto(t, 0, Counted(p, t.now));
    CountSteps(t, t1, t2, t3, p);
    RunsTo(s, es, i, t, t1);
    RunsTo(s, es, i + 1, t1, t2);
    RunsTo(s, es, i + 2, t2, t3);
  }

  lemma CountSteps(t: State, t1: State, t2: State, t3: State, p: ProjectId)
    requires t.calls == map[] && Admits(t, p, |Open(t, p)|)
    requires t1 == Goto(t, 0, Begun(p, t.now)) && t2 == Goto(t, 0, Locked(p, t.now)) && t3 == Goto(t, 0, Counted(p, t.now))
    ensures Next(t, Begin(0, p)) == t1 && Next(t1, Lock(0)) == t2 && Next(t2, Count(0)) == t3
  {
    assert Goto(t1, 0, Locked(p, t.now)) == t2 && LockFree(t1, p);
    assert OpenAt(t2, p, t.now) == Open(t, p) && Goto(t2, 0, Counted(p, t.now)) == t3;
  }

  /** One whole creation that is admitted. */
  lemma Creates(s: State, es: seq<Event>, i: nat, id: SessionId, x: Session, t: State)
    requires i + 4 <= |es| && Run(s, es[..i]) == t && t.calls == map[] && Admits(t, x.project, |Open(t, x.project)|)
    requires es[i] == Begin(0, x.project) && es[i + 1] == Lock(0) && es[i + 2] == Count(0) && es[i + 3] == Insert(0, id, x)
    requires !UniqueViolation(t, id, x.code)
    ensures Run(s, es[..i + 4]) == t.(sessions := t.sessions[id := x])
  {
    Counts(s, es, i, x.project, t);
    var t3 := Goto(t, 0, Counted(x.project, t.now));
    assert Forget(t3, 0).calls == t.calls && !UniqueViolation(t3, id, x.code);
    assert AfterInsert(t3, 0, id, x) == t.(sessions := t.sessions[id := x]);
    RunsTo(s, es, i + 3, t3, t.(sessions := t.sessions[id := x]));
  }

  /** A project with a class limit of one: a join checks the first session, which
      then expires; a second one takes its place; the join extends the first and
      brings it back. Two sessions are open. */
  lemma RevivalBreaksCap(s: State, p: ProjectId) returns (es: seq<Event>)
    requires Initial(s) && p in s.limits && s.limits[p] == 1
    ensures |Open(Run(s, es), p)| == 2 && !Capped(Run(s, es))
  {
    var a, b := One(p, "A", s.now + 10), One(p, "B", s.now + 20);
    es := [Begin(0, p), Lock(0), Count(0), Insert(0, 0, a), CheckJoin(5, 0), Tick(10),
           Begin(0, p), Lock(0), Count(0), Insert(0, 1, b), ExtendJoin(5, s.now + 20)];
    FirstExpires(s, es, p, a);
    ExtensionRevives(s, es, p, a, b);
  }

  /** The first half of that run. */
  lemma FirstExpires(s: State, es: seq<Event>, p: ProjectId, a: Session)
    requires Initial(s) && p in s.limits && s.limits[p] == 1 && |es| >= 6 && a == One(p, "A", s.now + 10)
    requires es[0] == Begin(0, p) && es[1] == Lock(0) && es[2] == Count(0) && es[3] == Insert(0, 0, a)
    requires es[4] == CheckJoin(5, 0) && es[5] == Tick(10)
    ensures Run(s, es[..6]) == AfterExpiry(s, a)
  {
    assert es[..0] == [] && Open(s, p) == {};
    Creates(s, es, 0, 0, a, s);
    var checked := s.(sessions := map[0 := a], extensions := map[5 := Joining(0, s.now)]);
    assert !Held(s.(sessions := map[0 := a]), 0);
    RunsTo(s, es, 4, s.(sessions := map[0 := a]), checked);
    RunsTo(s, es, 5, checked, AfterExpiry(s, a));
  }

  /** The second half of that run. */
  lemma ExtensionRevives(s: State, es: seq<Event>, p: ProjectId, a: Session, b: Session)
    requires Initial(s) && p in s.limits && s.limits[p] == 1 && |es| == 11 && Run(s, es[..6]) == AfterExpiry(s, a)
    requires a == One(p, "A", s.now + 10) && b == One(p, "B", s.now + 20)
    requires es[6] == Begin(0, p) && es[7] == Lock(0) && es[8] == Count(0) && es[9] == Insert(0, 1, b)
    requires es[10] == ExtendJoin(5, s.now + 20)
    ensures |Open(Run(s, es), p)| == 2 && !Capped(Run(s, es))
  {
    AfterRevival(s, p, a, b);
    Creates(s, es, 6, 1, b, AfterExpiry(s, a));
    RunsTo(s, es, 10, AfterExpiry(s, a).(sessions := map[0 := a, 1 := b]), Revived(s, a, b));
    assert es[..11] == es;
    assert !WithinCaps(Run(s, es), p, |Open(Run(s, es), p)|);
  }

  function AfterExpiry(s: State, a: Session): State {
    s.(now := s.now + 10, sessions := map[0 := a], extensions := map[5 := Joining(0, s.now)])
  }

  function Revived(s: State, a: Session, b: Session): State {
    AfterExpiry(s, a).(sessions := map[0 := a.(expires := s.now + 20), 1 := b], extensions := map[])
  }

  lemma AfterRevival(s: State, p: ProjectId, a: Session, b: Session)
    requires Initial(s) && p in s.limits && s.limits[p] == 1
    requires a == One(p, "A", s.now + 10) && b == One(p, "B", s.now + 20)
    ensures Admits(AfterExpiry(s, a), p, |Open(AfterExpiry(s, a), p)|) && !UniqueViolation(AfterExpiry(s, a), 1, "B")
    ensures AfterExpiry(s, a).sessions[1 := b] == map[0 := a, 1 := b]
    ensures AfterExpiry(s, a).extensions - {5} == map[]
    ensures Next(AfterExpiry(s, a).(sessions := map[0 := a, 1 := b]), ExtendJoin(5, s.now + 20)) == Revived(s, a, b)
    ensures |Open(Revived(s, a, b), p)| == 2
  {
    assert Open(AfterExpiry(s, a), p) == {};
    assert Open(Revived(s, a, b), p) == {0, 1};
  }

  lemma {:induction false} RunKeeps(s: State, es: seq<Event>)
    requires Initial(s) && NoRevival(s, es)
    ensures Inv(Run(s, es))
  {
    if es == [] {
      forall p: ProjectId ensures Open(s, p) == {} {}
    } else {
      var init := es[..|es| - 1];
      forall i | 0 <= i < |init| ensures !Revives(Run(s, init[..i]), init[i]) { assert init[..i] == es[..i]; }
      RunKeeps(s, init);
      StepKeeps(Run(s, init), es[|es| - 1]);
    }
  }

  lemma {:induction false} RunLimits(s: State, es: seq<Event>)
    ensures Run(s, es).limits == s.limits
  {
    if es != [] { RunLimits(s, es[..|es| - 1]); }
  }

  /** In every interleaving without revivals, under fixed limits, a project has
      at most the hard cap of open sessions, at most its enforced class limit,
      and a join code names one session. */
  lemma CapsHold(s: State, es: seq<Event>, p: ProjectId)
    requires Initial(s) && NoRevival(s, es)
    ensures var t := Run(s, es);
            && |Open(t, p)| <= SESSIONS_HARD_CAP
            && (p in s.limits && s.limits[p] != UNLIMITED ==> |Open(t, p)| <= s.limits[p])
            && (forall a, b | a in t.sessions && b in t.sessions && t.sessions[a].code == t.sessions[b].code :: a == b)
  {
    RunKeeps(s, es);
    RunLimits(s, es);
    assert WithinCaps(Run(s, es), p, |Open(Run(s, es), p)|);
  }

  lemma RunSnoc(s: State, es: seq<Event>, e: Event)
    ensures Run(s, es + [e]) == Next(Run(s, es), e)
  {
    assert (es + [e])[..|es|] == es;
  }

  lemma NoRevivalSnoc(s: State, es: seq<Event>, e: Event)
    requires NoRevival(s, es + [e])
    ensures NoRevival(s, es) && !Revives(Run(s, es), e)
  {
    assert (es + [e])[..|es|] == es;
    forall i | 0 <= i < |es| ensures !Revives(Run(s, es[..i]), es[i]) {
      assert (es + [e])[..i] == es[..i] && (es + [e])[i] == es[i];
    }
  }

  // ---- the roster ----------------------------------------------------------------------

  function Roster(ms: seq<Member>): map<PlayerId, Option<Addr>> {
    if ms == [] then map[] else Roster(ms[..|ms| - 1])[ms[|ms| - 1].player := ms[|ms| - 1].addr]
  }

  /** The roster holds exactly the seeded players, each with its last address. */
  lemma {:induction false} RosterLastWins(ms: seq<Member>, p: PlayerId)
    ensures p in Roster(ms) <==> exists i :: 0 <= i < |ms| && ms[i].player == p
    ensures forall i | 0 <= i < |ms| && ms[i].player == p && (forall j | i < j < |ms| :: ms[j].player != p) ::
              Roster(ms)[p] == ms[i].addr
  {
    if ms != [] {
      var init := ms[..|ms| - 1];
      RosterLastWins(init, p);
      if ms[|ms| - 1].player != p {
        assert p in Roster(init) <==> exists i :: 0 <= i < |ms| && ms[i].player == p by {
          if i :| 0 <= i < |ms| && ms[i].player == p { assert init[i].player == p; }
          if i :| 0 <= i < |init| && init[i].player == p { assert ms[i].player == p; }
        }
        forall i | 0 <= i < |ms| && ms[i].player == p && (forall j | i < j < |ms| :: ms[j].player != p)
          ensures Roster(ms)[p] == ms[i].addr
        {
          assert init[i].player == p;
          forall j | i < j < |init| ensures init[j].player != p { assert ms[j].player != p; }
        }
      }
    }
  }

  // ---- Create --------------------------------------------------------------------------

  datatype CreateError = TooManyPlayers | ProjectCapped | CodeCollision | Failed

  predicate About(e: Event, c: CallId, id: SessionId) {
    || ((e.Begin? || e.Lock? || e.Count? || e.Abort?) && e.call == c)
    || (e.Insert? && (e.call == c || e.id == id))
  }

  ghost predicate SameCall(s: State, t: State, c: CallId, id: SessionId) {
    && t.limits == s.limits && s.now <= t.now && (c in t.calls <==> c in s.calls)
    && (c in s.calls && c in t.calls ==> t.calls[c] == s.calls[c])
    && (id !in s.sessions ==> id !in t.sessions)
  }

  lemma OthersLeaveCall(s: State, e: Event, c: CallId, id: SessionId)
    requires !About(e, c, id)
    ensures SameCall(s, Next(s, e), c, id)
  {
  }

  /** The event behind an error of Create, the last of its run, on the state
      before it: the project was full when it was counted, the code or the
      identifier was taken, or another creation held the project's lock. */
  ghost predicate Explains(s: State, h: seq<Event>, c: CallId, id: SessionId, p: ProjectId, error: CreateError)
    requires h != []
  {
    var before, e := Run(s, h[..|h| - 1]), h[|h| - 1];
    match error
    case TooManyPlayers => false
    case ProjectCapped =>
      && e == Count(c) && c in before.calls
      && var open := |OpenAt(before, p, before.calls[c].at)|;
         open >= 10_000 || (p in before.limits && before.limits[p] != -1 && open >= before.limits[p])
    case CodeCollision =>
      e.Insert? && e.call == c && e.id == id
      && (id in before.sessions || exists other :: other in before.sessions && before.sessions[other].code == e.session.code)
    case Failed => e == Abort(c) && exists d :: d in before.calls && HoldsLock(before, d) && before.calls[d].project == p
  }

  class Service {
    var world: State
    ghost const origin: State
    ghost var history: seq<Event>

    ghost predicate Valid()
      reads this
    {
      Initial(origin) && world == Run(origin, history) && (NoRevival(origin, history) ==> Inv(world))
    }

    constructor (now: int, limits: map<ProjectId, int>)
      requires forall p | p in limits :: UNLIMITED <= limits[p]
      ensures Valid() && history == []
    {
      var empty := State(now, limits, map[], map[], map[]);
      world, origin, history := empty, empty, [];
      new;
      RunKeeps(origin, []);
    }

    method Do(e: Event)
      requires Valid()
      modifies this
      ensures Valid() && world == Next(old(world), e) && history == old(history) + [e]
    {
      RunSnoc(origin, history, e);
      if NoRevival(origin, history + [e]) {
        NoRevivalSnoc(origin, history, e);
        StepKeeps(world, e);
      }
      world := Next(world, e);
      history := history + [e];
    }

    /** Any other requests, and the clock, between two steps of the call c, which
        alone knows the identifier it drew. */
    method Others(c: CallId, id: SessionId)
      requires Valid()
      modifies this
      ensures Valid() && SameCall(old(world), world, c, id)
    {
      var n: nat := *;
      while n > 0
        invariant Valid() && SameCall(old(world), world, c, id)
      {
        var e: Event := *;
        if !About(e, c, id) {
          OthersLeaveCall(world, e, c, id);
          Do(e);
        }
        n := n - 1;
      }
    }

    /** Rolls the attempt back. */
    method GiveUp(c: CallId)
      requires Valid()
      modifies this
      ensures Valid() && world == Forget(old(world), c) && history == old(history) + [Abort(c)]
      ensures history[..|history| - 1] == old(history)
    {
      Do(Abort(c));
    }

    /** Create: at most JOIN_CODE_MAX_ATTEMPTS + 1 tries, each with a join code of
        its own; only a unique violation is tried again, and a failure leaves no
        session behind. */
    method Create(c: CallId, id: SessionId, p: ProjectId, maxPlayers: int, expires: int, members: seq<Member>)
      returns (r: Result<SessionId, CreateError>, tries: nat)
      requires Valid() && c !in world.calls && id !in world.sessions
      modifies this
      ensures Valid() && c !in world.calls && tries <= JOIN_CODE_MAX_ATTEMPTS + 1
      ensures r == Err(TooManyPlayers) <==> maxPlayers > MAX_PLAYERS_LIMIT
      ensures r == Err(CodeCollision) ==> tries == JOIN_CODE_MAX_ATTEMPTS + 1
      ensures r.Err? && r != Err(TooManyPlayers) ==> history != [] && Explains(origin, history, c, id, p, r.error)
      ensures r.Err? ==> id !in world.sessions
      ensures r.Ok? ==> (
                && r.value == id && id in world.sessions
                && var x := world.sessions[id];
                && x.project == p && x.expires == expires && !x.ended && x.peers == Roster(members)
                && x.maxPlayers == if maxPlayers <= 0 then DEFAULT_MAX_PLAYERS else maxPlayers)
      ensures NoRevival(origin, history) ==> Capped(world) && UniqueCodes(world)
    {
      tries := 0;
      var max := if maxPlayers <= 0 then DEFAULT_MAX_PLAYERS else maxPlayers;
      if max > MAX_PLAYERS_LIMIT { return Err(TooManyPlayers), tries; }
      while true
        invariant Valid() && c !in world.calls && id !in world.sessions && tries <= JOIN_CODE_MAX_ATTEMPTS
        decreases JOIN_CODE_MAX_ATTEMPTS - tries
      {
        var joinCode: string := *;
        Others(c, id);
        r := Attempt(c, id, p, Session(p, joinCode, max, false, expires, map[]), members);
        tries := tries + 1;
        if r != Err(CodeCollision) || tries > JOIN_CODE_MAX_ATTEMPTS { return; }
      }
    }

    /** One transaction: lock, count, insert, seed the roster. */
    method Attempt(c: CallId, id: SessionId, p: ProjectId, x: Session, members: seq<Member>)
      returns (r: Result<SessionId, CreateError>)
      requires Valid() && c !in world.calls && id !in world.sessions && x.project == p
      modifies this
      ensures Valid() && c !in world.calls && r != Err(TooManyPlayers)
      ensures r.Err? ==> history != [] && Explains(origin, history, c, id, p, r.error)
      ensures r.Err? ==> id !in world.sessions
      ensures r.Ok? ==> r.value == id && id in world.sessions && world.sessions[id] == x.(peers := Roster(members))
    {
      Do(Begin(c, p));
      Others(c, id);
      if !LockFree(world, p) {
        GiveUp(c);
        return Err(Failed);
      }
      Do(Lock(c));
      var admitted := CountOpen(c, id);
      if !admitted { return Err(ProjectCapped); }
      var peers := SeedRoster(members);
      r := InsertSession(c, id, x.(peers := peers));
    }

    method CountOpen(c: CallId, id: SessionId) returns (admitted: bool)
      requires Valid() && c in world.calls && world.calls[c].Locked? && id !in world.sessions
      modifies this
      ensures Valid() && id !in world.sessions
      ensures c in world.calls <==> admitted
      ensures !admitted ==> history != [] && Explains(origin, history, c, id, old(world).calls[c].project, ProjectCapped)
      ensures admitted ==> world.calls[c] == Counted(old(world).calls[c].project, old(world).calls[c].at)
    {
      Others(c, id);
      admitted := Admits(world, world.calls[c].project, |OpenAt(world, world.calls[c].project, world.calls[c].at)|);
      ghost var before := history;
      Do(Count(c));
      assert history[..|history| - 1] == before;
    }

    method InsertSession(c: CallId, id: SessionId, x: Session) returns (r: Result<SessionId, CreateError>)
      requires Valid() && c in world.calls && world.calls[c].Counted? && x.project == world.calls[c].project
      requires id !in world.sessions
      modifies this
      ensures Valid() && c !in world.calls
      ensures r == Err(CodeCollision) || r == Ok(id)
      ensures r.Err? ==> history != [] && Explains(origin, history, c, id, x.project, r.error)
      ensures r.Err? ==> id !in world.sessions
      ensures r.Ok? ==> id in world.sessions && world.sessions[id] == x
    {
      Others(c, id);
      var violation := UniqueViolation(world, id, x.code);
      ghost var before := history;
      Do(Insert(c, id, x));
      assert history[..|history| - 1] == before;
      r := if violation then Err(CodeCollision) else Ok(id);
    }

    method SeedRoster(members: seq<Member>) returns (peers: map<PlayerId, Option<Addr>>)
      ensures peers == Roster(members)
    {
      peers := map[];
      for i := 0 to |members|
        invariant peers == Roster(members[..i])
      {
        assert members[..i + 1][..i] == members[..i];
        peers := peers[members[i].player := members[i].addr];
      }
      assert members[..|members|] == members;
    }
  }
}
