/** Sign-in methods of control panel users: provider links, unlinks and accepts.
    An unlink is three steps under a row lock (lock, delete and count, commit);
    the other operations are whole transactions. An event that the state does
    not allow leaves it alone. */
module SignInMethods {
  import opened Wrappers

  type UserId = nat
  type CallId = nat

  datatype User = User(email: string, hasPassword: bool, disabled: bool)

  datatype Connection = Connection(user: UserId, provider: string, subject: string)

  /** An unlink that holds the lock on its user's row. */
  datatype Unlink =
    | Locked(user: UserId, provider: string, hasPassword: bool)
    | Counted(user: UserId, provider: string, hasPassword: bool)

  datatype State = State(
    users: map<UserId, User>,
    connections: set<Connection>,
    unlinks: map<CallId, Unlink>)

  datatype Event =
    | Create(id: UserId, email: string)
    | SetPassword(id: UserId)
    | SetDisabled(id: UserId, disabled: bool)
    | Link(user: UserId, provider: string, subject: string)
    | Accept(id: UserId, email: string, provider: string, subject: string)
    | Lock(call: CallId, user: UserId, provider: string)
    | Count(call: CallId)
    | Commit(call: CallId)

  datatype LinkNotice = Linked | AlreadyLinked | SubjectTaken | ProviderTaken

  datatype AcceptResult = Existing | Created(user: UserId) | Refused(error: AcceptError)

  datatype AcceptError = AcceptSubjectTaken | AccountDisabled | NotLinked

  datatype UnlinkVerdict = NotLinkedHere | LastMethod | Allowed

  ghost predicate Initial(s: State) {
    s.users == map[] && s.connections == {} && s.unlinks == map[]
  }

  function Holders(s: State, provider: string, subject: string): set<UserId> {
    set c | c in s.connections && c.provider == provider && c.subject == subject :: c.user
  }

  function OfUser(s: State, u: UserId): set<Connection> {
    set c | c in s.connections && c.user == u
  }

  function WithEmail(s: State, email: string): set<UserId> {
    set u | u in s.users && s.users[u].email == email
  }

  /** Another transaction holds the row lock. */
  predicate RowLocked(s: State, u: UserId) {
    exists c :: c in s.unlinks && s.unlinks[c].user == u
  }

  // ---- decisions -----------------------------------------------------------------------

  function LinkOutcome(s: State, u: UserId, provider: string, subject: string): LinkNotice {
    var holders := Holders(s, provider, subject);
    if u in holders then AlreadyLinked
    else if holders != {} then SubjectTaken
    else if exists c | c in OfUser(s, u) :: c.provider == provider then ProviderTaken
    else Linked
  }

  /** resolveSSOAcceptUser for an emailed invite or signup approval. */
  function AcceptOutcome(s: State, id: UserId, email: string, provider: string, subject: string): AcceptResult {
    var holders := Holders(s, provider, subject);
    var named := WithEmail(s, email);
    if named == {} then if holders != {} then Refused(AcceptSubjectTaken) else Created(id)
    else if exists u | u in named :: s.users[u].disabled then Refused(AccountDisabled)
    else if named * holders == {} then Refused(NotLinked)
    else Existing
  }

  function UnlinkDecision(s: State, u: UserId, provider: string, hasPassword: bool): UnlinkVerdict {
    var mine := OfUser(s, u);
    var remaining := set c | c in mine && c.provider != provider;
    if remaining == mine then NotLinkedHere
    else if !hasPassword && |remaining| == 0 then LastMethod
    else Allowed
  }

  // ---- one step ------------------------------------------------------------------------

  function Next(s: State, e: Event): State {
    match e
    case Create(id, email) =>
      if id in s.users || WithEmail(s, email) != {} then s else s.(users := s.users[id := User(email, true, false)])
    case SetPassword(id) =>
      if id !in s.users || RowLocked(s, id) then s else s.(users := s.users[id := s.users[id].(hasPassword := true)])
    case SetDisabled(id, disabled) =>
      if id !in s.users || RowLocked(s, id) then s else s.(users := s.users[id := s.users[id].(disabled := disabled)])
    case Link(u, provider, subject) =>
      if u !in s.users || LinkOutcome(s, u, provider, subject) != Linked then s
      else s.(connections := s.connections + {Connection(u, provider, subject)})
    case Accept(id, email, provider, subject) =>
      if id in s.users || !AcceptOutcome(s, id, email, provider, subject).Created? then s
      else s.(users := s.users[id := User(email, false, false)],
              connections := s.connections + {Connection(id, provider, subject)})
    case Lock(c, u, provider) =>
      if c in s.unlinks || u !in s.users || RowLocked(s, u) then s
      else s.(unlinks := s.unlinks[c := Locked(u, provider, s.users[u].hasPassword)])
    case Count(c) =>
      if c !in s.unlinks || s.unlinks[c].Counted? then s
      else
        var Locked(u, provider, hasPassword) := s.unlinks[c];
        if UnlinkDecision(s, u, provider, hasPassword) == Allowed
        then s.(unlinks := s.unlinks[c := Counted(u, provider, hasPassword)])
        else s.(unlinks := s.unlinks - {c})
    case Commit(c) =>
      if c !in s.unlinks || s.unlinks[c].Locked? then s
      else
        var Counted(u, provider, hasPassword) := s.unlinks[c];
        s.(unlinks := s.unlinks - {c},
           connections := set x | x in s.connections && !(x.user == u && x.provider == provider))
  }

  function Run(s: State, es: seq<Event>): State {
    if es == [] then s else Next(Run(s, es[..|es| - 1]), es[|es| - 1])
  }

  // ---- safety ----------------------------------------------------------------------------

  /** The user can still sign in. */
  ghost predicate CanSignIn(s: State, u: UserId)
    requires u in s.users
  {
    s.users[u].hasPassword || OfUser(s, u) != {}
  }

  ghost predicate UnlinkInv(s: State, c: CallId)
    requires c in s.unlinks
  {
    var x := s.unlinks[c];
    && x.user in s.users
    && (x.hasPassword <==> s.users[x.user].hasPassword)
    && (forall d | d in s.unlinks && d != c :: s.unlinks[d].user != x.user)
    && (x.Counted? && !x.hasPassword ==> exists k :: k in s.connections && k.user == x.user && k.provider != x.provider)
  }

  ghost predicate Inv(s: State) {
    && (forall u | u in s.users :: CanSignIn(s, u))
    && (forall c | c in s.unlinks :: UnlinkInv(s, c))
    && (forall k | k in s.connections :: k.user in s.users)
    && (forall u, v | u in s.users && v in s.users && s.users[u].email == s.users[v].email :: u == v)
  }

  /** One user per provider subject, and one connection per user and provider. */
  ghost predicate Unique(s: State) {
    forall a, b | a in s.connections && b in s.connections ::
      && (a.provider == b.provider && a.subject == b.subject ==> a.user == b.user)
      && (a.user == b.user && a.provider == b.provider ==> a == b)
  }

  lemma CanSignInIf(s: State, u: UserId, k: Connection)
    requires u in s.users && k in s.connections && k.user == u
    ensures CanSignIn(s, u)
  {
    assert k in OfUser(s, u);
  }

  lemma CountKeeps(s: State, c: CallId)
    requires Inv(s)
    ensures Inv(Next(s, Count(c)))
  {
    var t := Next(s, Count(c));
    forall d | d in t.unlinks ensures UnlinkInv(t, d) {
      assert UnlinkInv(s, d);
      if d == c && t.unlinks[c] != s.unlinks[c] {
        var Locked(u, provider, hasPassword) := s.unlinks[c];
        var remaining := set k | k in OfUser(s, u) && k.provider != provider;
        if !hasPassword {
          assert |remaining| != 0;
          var k :| k in remaining;
        }
      }
    }
    forall u | u in t.users ensures CanSignIn(t, u) { assert CanSignIn(s, u) && OfUser(t, u) == OfUser(s, u); }
  }

  lemma CommitKeeps(s: State, c: CallId)
    requires Inv(s)
    ensures Inv(Next(s, Commit(c)))
  {
    var t := Next(s, Commit(c));
    if c in s.unlinks && s.unlinks[c].Counted? {
      var Counted(u, provider, hasPassword) := s.unlinks[c];
      assert UnlinkInv(s, c);
      forall v | v in t.users ensures CanSignIn(t, v) {
        assert CanSignIn(s, v);
        if v == u && !hasPassword {
          var k :| k in s.connections && k.user == u && k.provider != provider;
          CanSignInIf(t, v, k);
        } else if v != u && !s.users[v].hasPassword {
          var k :| k in OfUser(s, v);
          CanSignInIf(t, v, k);
        }
      }
      forall d | d in t.unlinks ensures UnlinkInv(t, d) {
        assert UnlinkInv(s, d);
        var x := s.unlinks[d];
        if x.Counted? && !x.hasPassword {
          var k :| k in s.connections && k.user == x.user && k.provider != x.provider;
          assert k in t.connections;
        }
      }
    }
  }

  /** Users and connections only grow, and no lock changes hands. */
  lemma GrowKeeps(s: State, t: State)
    requires Inv(s)
    requires s.connections <= t.connections && t.unlinks == s.unlinks
    requires forall u | u in s.users :: u in t.users && t.users[u].email == s.users[u].email
                                        && (s.users[u].hasPassword ==> t.users[u].hasPassword)
    requires forall u | u in s.users && RowLocked(s, u) :: t.users[u].hasPassword == s.users[u].hasPassword
    requires forall u | u in t.users && u !in s.users :: CanSignIn(t, u)
    requires forall k | k in t.connections :: k.user in t.users
    requires forall u, v | u in t.users && v in t.users && t.users[u].email == t.users[v].email :: u == v
    ensures Inv(t)
  {
    forall u | u in t.users ensures CanSignIn(t, u) {
      if u in s.users && !s.users[u].hasPassword {
        assert CanSignIn(s, u);
        var k :| k in OfUser(s, u);
        CanSignInIf(t, u, k);
      }
    }
    forall d | d in t.unlinks ensures UnlinkInv(t, d) {
      assert UnlinkInv(s, d);
      var x := s.unlinks[d];
      if x.Counted? && !x.hasPassword {
        var k :| k in s.connections && k.user == x.user && k.provider != x.provider;
        assert k in t.connections;
      }
    }
  }

  lemma NewUserKeeps(s: State, id: UserId, user: User, added: set<Connection>)
    requires Inv(s)
    ensures id !in s.users && WithEmail(s, user.email) == {} && (forall k | k in added :: k.user == id) &&
            (user.hasPassword || added != {}) ==>
              Inv(s.(users := s.users[id := user], connections := s.connections + added))
  {
    if id !in s.users && WithEmail(s, user.email) == {} && (forall k | k in added :: k.user == id) &&
       (user.hasPassword || added != {}) {
      var t := s.(users := s.users[id := user], connections := s.connections + added);
      forall u | u in s.users ensures s.users[u].email != user.email {
        assert u !in WithEmail(s, user.email);
      }
      if !user.hasPassword {
        var k :| k in added;
        CanSignInIf(t, id, k);
      }
      GrowKeeps(s, t);
    }
  }

  lemma LockKeeps(s: State, c: CallId, u: UserId, provider: string)
    requires Inv(s)
    ensures Inv(Next(s, Lock(c, u, provider)))
  {
    var t := Next(s, Lock(c, u, provider));
    forall d | d in t.unlinks ensures UnlinkInv(t, d) { if d in s.unlinks { assert UnlinkInv(s, d); } }
    forall v | v in t.users ensures CanSignIn(t, v) { assert CanSignIn(s, v) && OfUser(t, v) == OfUser(s, v); }
  }

  lemma StepKeeps(s: State, e: Event)
    requires Inv(s)
    ensures Inv(Next(s, e))
  {
    var t := Next(s, e);
    match e
    case Lock(c, u, provider) => LockKeeps(s, c, u, provider);
    case Count(c) => CountKeeps(s, c);
    case Commit(c) => CommitKeeps(s, c);
    case Create(id, email) => NewUserKeeps(s, id, User(email, true, false), {});
    case Accept(id, email, provider, subject) =>
      NewUserKeeps(s, id, User(email, false, false), {Connection(id, provider, subject)});
    case Link(u, provider, subject) => if t != s { GrowKeeps(s, t); }
    case SetPassword(id) => UserKeeps(s, e);
    case SetDisabled(id, disabled) => UserKeeps(s, e);
  }

  lemma UserKeeps(s: State, e: Event)
    requires Inv(s) && (e.SetPassword? || e.SetDisabled?)
    ensures Inv(Next(s, e))
  {
    if Next(s, e) != s { GrowKeeps(s, Next(s, e)); }
  }

  lemma {:induction false} RunKeeps(s: State, es: seq<Event>)
    requires Initial(s)
    ensures Inv(Run(s, es))
  {
    if es != [] {
      RunKeeps(s, es[..|es| - 1]);
      StepKeeps(Run(s, es[..|es| - 1]), es[|es| - 1]);
    }
  }

  /** Over every interleaving of links, unlinks and accepts, each user keeps a
      password or at least one connection. */
  lemma NobodyLockedOut(s: State, es: seq<Event>, u: UserId)
    requires Initial(s) && u in Run(s, es).users
    ensures CanSignIn(Run(s, es), u)
  {
    RunKeeps(s, es);
  }

  lemma StepUnique(s: State, e: Event)
    requires Unique(s) && Inv(s)
    ensures Unique(Next(s, e))
  {
    var t := Next(s, e);
    match e
    case Link(u, provider, subject) =>
      if t != s {
        forall k | k in s.connections
          ensures !(k.provider == provider && k.subject == subject) && !(k.user == u && k.provider == provider)
        {
          assert k.provider == provider && k.subject == subject ==> k.user in Holders(s, provider, subject);
          assert k.user == u ==> k in OfUser(s, u);
        }
      }
    case Accept(id, email, provider, subject) =>
      if t != s {
        forall k | k in s.connections ensures !(k.provider == provider && k.subject == subject) && k.user != id {
          assert k.provider == provider && k.subject == subject ==> k.user in Holders(s, provider, subject);
        }
      }
    case _ =>
  }

  /** Each provider subject belongs to at most one user, and a user has at most
      one connection per provider, without help from the unique indexes. */
  lemma {:induction false} SubjectsUnique(s: State, es: seq<Event>)
    requires Initial(s)
    ensures Unique(Run(s, es))
  {
    if es != [] {
      SubjectsUnique(s, es[..|es| - 1]);
      RunKeeps(s, es[..|es| - 1]);
      StepUnique(Run(s, es[..|es| - 1]), es[|es| - 1]);
    }
  }

  /** An unlink that reaches its commit removes exactly that provider's connection. */
  lemma CommitRemovesOne(s: State, c: CallId)
    requires c in s.unlinks && s.unlinks[c].Counted?
    ensures var u := s.unlinks[c].user; var t := Next(s, Commit(c));
            && c !in t.unlinks && t.users == s.users
            && (forall k :: k in t.connections <==> k in s.connections && !(k.user == u && k.provider == s.unlinks[c].provider))
  {
  }

  /** A password or a disabling takes effect at once unless an unlink holds the row. */
  lemma UserChanges(s: State, id: UserId, disabled: bool)
    requires id in s.users && forall c | c in s.unlinks :: s.unlinks[c].user != id
    ensures var t := Next(s, SetPassword(id)); id in t.users && t.users[id].hasPassword && t.connections == s.connections
    ensures var t := Next(s, SetDisabled(id, disabled));
            id in t.users && t.users[id].disabled == disabled && t.users[id].hasPassword == s.users[id].hasPassword
            && t.connections == s.connections
  {
  }

  lemma RunSnoc(s: State, es: seq<Event>, e: Event)
    ensures Run(s, es + [e]) == Next(Run(s, es), e)
  {
    assert (es + [e])[..|es|] == es;
  }

  // ---- the handlers --------------------------------------------------------------------------

  datatype UnlinkError = Busy | NotLinkedError | LastMethodError

  ghost predicate SameUnlink(s: State, t: State, c: CallId) {
    (c in t.unlinks <==> c in s.unlinks) && (c in s.unlinks && c in t.unlinks ==> t.unlinks[c] == s.unlinks[c])
  }

  lemma OthersLeaveUnlink(s: State, e: Event, c: CallId)
    requires !((e.Lock? || e.Count? || e.Commit?) && e.call == c)
    ensures SameUnlink(s, Next(s, e), c)
  {
  }

  /** Why an unlink is refused: another transaction holds the row, there is no
      connection to that provider, or it is the user's last way in. */
  ghost predicate Refuses(s: State, u: UserId, provider: string, error: UnlinkError) {
    match error
    case Busy => true
    case NotLinkedError => forall k | k in s.connections :: !(k.user == u && k.provider == provider)
    case LastMethodError =>
      && u in s.users && !s.users[u].hasPassword
      && (exists k :: k in s.connections && k.user == u && k.provider == provider)
      && (forall k | k in s.connections && k.user == u :: k.provider == provider)
  }

  lemma DecisionMeans(s: State, u: UserId, provider: string)
    requires u in s.users
    ensures var v := UnlinkDecision(s, u, provider, s.users[u].hasPassword);
            && (v == NotLinkedHere ==> Refuses(s, u, provider, NotLinkedError))
            && (v == LastMethod ==> Refuses(s, u, provider, LastMethodError))
  {
    var mine := OfUser(s, u);
    var remaining := set c | c in mine && c.provider != provider;
    forall k | k in s.connections && k.user == u ensures k in mine && (k.provider != provider ==> k in remaining) {}
    if remaining != mine { var k :| k in mine && k !in remaining; }
  }

  class SignInService {
    var world: State
    ghost const origin: State
    ghost var history: seq<Event>

    ghost predicate Valid()
      reads this
    {
      Initial(origin) && world == Run(origin, history) && Inv(world)
    }

    constructor ()
      ensures Valid()
    {
      world, origin, history := State(map[], {}, map[]), State(map[], {}, map[]), [];
    }

    method Do(e: Event)
      requires Valid()
      modifies this
      ensures Valid() && world == Next(old(world), e) && history == old(history) + [e]
    {
      RunSnoc(origin, history, e);
      StepKeeps(world, e);
      world := Next(world, e);
      history := history + [e];
    }

    /** Any other requests, between two steps of the unlink c. */
    method Others(c: CallId)
      requires Valid()
      modifies this
      ensures Valid() && SameUnlink(old(world), world, c)
      ensures Commit(c) in history <==> Commit(c) in old(history)
    {
      var n: nat := *;
      while n > 0
        invariant Valid() && SameUnlink(old(world), world, c)
        invariant Commit(c) in history <==> Commit(c) in old(history)
      {
        var e: Event := *;
        if !((e.Lock? || e.Count? || e.Commit?) && e.call == c) {
          OthersLeaveUnlink(world, e, c);
          Do(e);
        }
        n := n - 1;
      }
    }

    /** The last step of the run took away the user's connection to the provider,
        and nothing else. */
    ghost predicate RemovedLast(u: UserId, provider: string)
      reads this
    {
      && history != []
      && var before := Run(origin, history[..|history| - 1]);
      && world.users == before.users
      && forall k :: k in world.connections <==> k in before.connections && !(k.user == u && k.provider == provider)
    }

    method SsoLink(u: UserId, provider: string, subject: string) returns (notice: LinkNotice)
      requires Valid() && u in world.users
      modifies this
      ensures Valid() && world.users == old(world.users) && world.unlinks == old(world.unlinks)
      ensures notice == AlreadyLinked <==> Connection(u, provider, subject) in old(world.connections)
      ensures notice == Linked <==> (forall k | k in old(world.connections) ::
                !(k.provider == provider && (k.subject == subject || k.user == u)))
      ensures world.connections == if notice == Linked then old(world.connections) + {Connection(u, provider, subject)}
                                   else old(world.connections)
      ensures notice == SubjectTaken ==> exists v :: v != u && Connection(v, provider, subject) in world.connections
      ensures notice == ProviderTaken ==> exists k :: k in world.connections && k.user == u && k.provider == provider && k.subject != subject
    {
      notice := LinkOutcome(world, u, provider, subject);
      LinkOutcomeMeans(world, u, provider, subject);
      Do(Link(u, provider, subject));
    }

    /** resolveSSOAcceptUser: the emailed code proves the email, the provider the subject. */
    method ResolveAccept(id: UserId, email: string, provider: string, subject: string) returns (r: AcceptResult)
      requires Valid() && id !in world.users
      modifies this
      ensures Valid() && world.unlinks == old(world.unlinks)
      ensures !r.Created? ==> world.users == old(world.users) && world.connections == old(world.connections)
      ensures r == Existing ==> exists u :: u in world.users && world.users[u].email == email && !world.users[u].disabled
                                            && Connection(u, provider, subject) in world.connections
      ensures r == Refused(AccountDisabled) <==>
                exists u :: u in world.users && world.users[u].email == email && world.users[u].disabled
      ensures r == Refused(NotLinked) ==> forall u | u in world.users && world.users[u].email == email ::
                !world.users[u].disabled && Connection(u, provider, subject) !in world.connections
      ensures r == Refused(AcceptSubjectTaken) ==>
                exists k :: k in world.connections && k.provider == provider && k.subject == subject
      ensures r.Created? ==> (
                && r.user == id
                && world.users == old(world.users)[id := User(email, false, false)]
                && world.connections == old(world.connections) + {Connection(id, provider, subject)}
                && (forall u | u in old(world.users) :: old(world.users)[u].email != email)
                && (forall k | k in old(world.connections) :: !(k.provider == provider && k.subject == subject)))
    {
      r := AcceptOutcome(world, id, email, provider, subject);
      AcceptOutcomeMeans(world, id, email, provider, subject);
      Do(Accept(id, email, provider, subject));
    }

    /** ssoUnlink: on any error the whole transaction is rolled back. */
    method SsoUnlink(c: CallId, u: UserId, provider: string) returns (r: Result<(), UnlinkError>)
      requires Valid() && c !in world.unlinks && u in world.users
      modifies this
      ensures Valid() && c !in world.unlinks
      ensures r.Err? ==> (Commit(c) in history <==> Commit(c) in old(history))
      ensures r.Ok? ==> u in world.users && CanSignIn(world, u) && RemovedLast(u, provider)
      ensures r.Err? ==> Refuses(world, u, provider, r.error)
      ensures r == Err(Busy) <==> old(RowLocked(world, u))
    {
      Do(Lock(c, u, provider));
      if c !in world.unlinks { return Err(Busy); }
      r := UnlinkLocked(c, u, provider);
    }

    method UnlinkLocked(c: CallId, u: UserId, provider: string) returns (r: Result<(), UnlinkError>)
      requires Valid() && c in world.unlinks && u in world.users
      requires world.unlinks[c] == Locked(u, provider, world.users[u].hasPassword)
      modifies this
      ensures Valid() && c !in world.unlinks
      ensures r.Err? ==> (Commit(c) in history <==> Commit(c) in old(history))
      ensures r.Ok? ==> u in world.users && CanSignIn(world, u) && RemovedLast(u, provider)
      ensures r.Err? ==> r != Err(Busy) && Refuses(world, u, provider, r.error)
    {
      var hasPassword := world.unlinks[c].hasPassword;
      Others(c);
      assert UnlinkInv(world, c);
      var verdict := UnlinkDecision(world, u, provider, hasPassword);
      DecisionMeans(world, u, provider);
      Do(Count(c));
      if verdict == NotLinkedHere { return Err(NotLinkedError); }
      if verdict == LastMethod { return Err(LastMethodError); }
      FinishUnlink(c, u, provider, hasPassword);
      r := Ok(());
    }

    method FinishUnlink(c: CallId, u: UserId, provider: string, hasPassword: bool)
      requires Valid() && c in world.unlinks && world.unlinks[c] == Counted(u, provider, hasPassword)
      modifies this
      ensures Valid() && c !in world.unlinks && u in world.users && CanSignIn(world, u) && RemovedLast(u, provider)
    {
      Others(c);
      assert UnlinkInv(world, c);
      ghost var before := history;
      CommitRemovesOne(world, c);
      Do(Commit(c));
      assert history[..|history| - 1] == before;
    }
  }

  lemma AcceptOutcomeMeans(s: State, id: UserId, email: string, provider: string, subject: string)
    ensures var r := AcceptOutcome(s, id, email, provider, subject);
            && (r == Existing ==> exists u :: u in s.users && s.users[u].email == email && !s.users[u].disabled
                                              && Connection(u, provider, subject) in s.connections)
            && (r.Created? ==> r.user == id)
            && (r.Created? <==>
                  && (forall u | u in s.users :: s.users[u].email != email)
                  && (forall k | k in s.connections :: !(k.provider == provider && k.subject == subject)))
            && (r == Refused(AccountDisabled) <==> exists u :: u in s.users && s.users[u].email == email && s.users[u].disabled)
            && (r == Refused(NotLinked) ==> forall u | u in s.users && s.users[u].email == email ::
                  !s.users[u].disabled && Connection(u, provider, subject) !in s.connections)
            && (r == Refused(AcceptSubjectTaken) ==>
                  && (forall u | u in s.users :: s.users[u].email != email)
                  && (exists k :: k in s.connections && k.provider == provider && k.subject == subject))
  {
    var r := AcceptOutcome(s, id, email, provider, subject);
    var holders, named := Holders(s, provider, subject), WithEmail(s, email);
    forall u ensures u in named <==> u in s.users && s.users[u].email == email {}
    forall k | k in s.connections && k.provider == provider && k.subject == subject ensures k.user in holders {}
    if r.Created? { assert named == {} && holders == {}; }
    if named != {} { var u :| u in named; assert s.users[u].email == email; }
    if holders != {} {
      var u :| u in holders;
      var k :| k in s.connections && k.provider == provider && k.subject == subject && k.user == u;
    }
    forall u | u in named ensures u in holders <==> Connection(u, provider, subject) in s.connections {
      if u in holders {
        var k :| k in s.connections && k.provider == provider && k.subject == subject && k.user == u;
        assert k == Connection(u, provider, subject);
      }
    }
    if r == Refused(NotLinked) {
      forall u | u in named ensures u !in holders { assert u in holders ==> u in named * holders; }
    }
    if r == Existing {
      var u :| u in named * holders;
      var k :| k in s.connections && k.provider == provider && k.subject == subject && k.user == u;
      assert k == Connection(u, provider, subject);
    }
  }

  lemma LinkOutcomeMeans(s: State, u: UserId, provider: string, subject: string)
    ensures var n := LinkOutcome(s, u, provider, subject);
            && (n == AlreadyLinked <==> Connection(u, provider, subject) in s.connections)
            && (n == SubjectTaken ==> exists v :: v != u && Connection(v, provider, subject) in s.connections)
            && (n == ProviderTaken ==> exists k :: k in s.connections && k.user == u && k.provider == provider && k.subject != subject)
            && (n == Linked <==> forall k | k in s.connections :: !(k.provider == provider && (k.subject == subject || k.user == u)))
  {
    var holders := Holders(s, provider, subject);
    forall v ensures v in holders <==> Connection(v, provider, subject) in s.connections {
      if v in holders {
        var k :| k in s.connections && k.provider == provider && k.subject == subject && k.user == v;
        assert k == Connection(v, provider, subject);
      }
    }
    forall k | k in s.connections && k.user == u ensures k in OfUser(s, u) {}
    if u !in holders && holders != {} { var v :| v in holders; assert Connection(v, provider, subject) in s.connections; }
  }
}
