/** Refresh-token rotation with reuse detection and session epochs. A refresh is
    two steps, the read of the session and the conditional revoke with the
    insert, so any number of refreshes may have read one token as live. An event
    the state does not allow leaves it alone. Tokens are never reused. */
module PlayerSessions {
  import opened Wrappers

  type Token = nat
  type Player = nat
  type Chain = nat
  type CallId = nat

  const REFRESH_TTL: int := 30 * 24 * 3600

  datatype Status = Live | Rotated | LoggedOut | Killed

  /** One sessions row; `chain` is the login it descends from. */
  datatype Session = Session(player: Player, chain: Chain, status: Status, expires: int)

  /** An access token carries the epoch its issuer read. */
  datatype Access = Access(player: Player, epoch: nat)

  /** A refresh that read a live session, and the epoch it read with it. */
  datatype Pending = Pending(token: Token, epoch: nat)

  /** gone: the players that are disabled, unlinked or deleted. */
  datatype State = State(
    sessions: map<Token, Session>,
    gone: set<Player>,
    epochs: map<Player, nat>,
    calls: map<CallId, Pending>,
    newest: map<Chain, Token>,   // the last token handed out on each chain
    minted: set<Access>)

  datatype Event =
    | Login(player: Player, chain: Chain, token: Token, now: int)
    | Read(call: CallId, token: Token, banned: bool, now: int)
    | Commit(call: CallId, renewed: Token, now: int)
    | Logout(token: Token)
    | PasswordReset(player: Player)
    | SetGone(player: Player, gone: bool)

  ghost predicate Initial(s: State) {
    s.sessions == map[] && s.gone == {} && s.calls == map[] && s.newest == map[] && s.minted == {}
  }

  function Epoch(s: State, p: Player): nat {
    if p in s.epochs then s.epochs[p] else 0
  }

  function KillAll(sessions: map<Token, Session>, p: Player): map<Token, Session> {
    map t | t in sessions ::
      if sessions[t].player == p && sessions[t].status == Live then sessions[t].(status := Killed) else sessions[t]
  }

  /** Revokes every live session of the player and outdates its access tokens. */
  function Mitigate(s: State, p: Player): State {
    s.(sessions := KillAll(s.sessions, p), epochs := s.epochs[p := Epoch(s, p) + 1])
  }

  function AfterLogin(s: State, p: Player, chain: Chain, t: Token, now: int): State {
    if t in s.sessions || chain in s.newest || p in s.gone then s
    else s.(sessions := s.sessions[t := Session(p, chain, Live, now + REFRESH_TTL)],
            newest := s.newest[chain := t],
            minted := s.minted + {Access(p, Epoch(s, p))})
  }

  /** The lookup of a session by its token, which a player who is gone fails. */
  predicate Known(s: State, t: Token) {
    t in s.sessions && s.sessions[t].player !in s.gone
  }

  /** A rotated token is being presented again. */
  predicate Reuse(s: State, t: Token) {
    Known(s, t) && s.sessions[t].status == Rotated
  }

  function AfterRead(s: State, c: CallId, t: Token, banned: bool, now: int): State {
    if c in s.calls || !Known(s, t) then s
    else if Reuse(s, t) then Mitigate(s, s.sessions[t].player)
    else if s.sessions[t].status != Live || s.sessions[t].expires < now || banned then s
    else s.(calls := s.calls[c := Pending(t, Epoch(s, s.sessions[t].player))])
  }

  /** The conditional revoke finds its row still live. */
  predicate Redeems(s: State, c: CallId, renewed: Token) {
    && c in s.calls && renewed !in s.sessions
    && s.calls[c].token in s.sessions && s.sessions[s.calls[c].token].status == Live
  }

  function AfterCommit(s: State, c: CallId, renewed: Token, now: int): State {
    if !Redeems(s, c, renewed) then s.(calls := s.calls - {c})
    else
      var t := s.calls[c].token;
      var was := s.sessions[t];
      s.(calls := s.calls - {c},
         sessions := s.sessions[t := was.(status := Rotated)][renewed := Session(was.player, was.chain, Live, now + REFRESH_TTL)],
         newest := s.newest[was.chain := renewed],
         minted := s.minted + {Access(was.player, s.calls[c].epoch)})
  }

  function AfterLogout(s: State, t: Token): State {
    if t in s.sessions && s.sessions[t].status == Live
    then s.(sessions := s.sessions[t := s.sessions[t].(status := LoggedOut)]) else s
  }

  function Next(s: State, e: Event): State {
    match e
    case Login(p, chain, t, now) => AfterLogin(s, p, chain, t, now)
    case Read(c, t, banned, now) => AfterRead(s, c, t, banned, now)
    case Commit(c, renewed, now) => AfterCommit(s, c, renewed, now)
    case Logout(t) => AfterLogout(s, t)
    case PasswordReset(p) => Mitigate(s, p)
    case SetGone(p, gone) => s.(gone := if gone then s.gone + {p} else s.gone - {p})
  }

  function Run(s: State, es: seq<Event>): State {
    if es == [] then s else Next(Run(s, es[..|es| - 1]), es[|es| - 1])
  }

  // ---- the invariant -----------------------------------------------------------

  ghost predicate SessionInv(s: State, t: Token)
    requires t in s.sessions
  {
    var x := s.sessions[t];
    && x.chain in s.newest && s.newest[x.chain] in s.sessions && s.sessions[s.newest[x.chain]].chain == x.chain
    && (x.status == Live ==> s.newest[x.chain] == t)
    && (x.status == Rotated ==> s.newest[x.chain] != t)
  }

  ghost predicate CallInv(s: State, c: CallId)
    requires c in s.calls
  {
    var t := s.calls[c].token;
    && t in s.sessions
    && (s.sessions[t].status == Live ==> s.calls[c].epoch == Epoch(s, s.sessions[t].player))
  }

  ghost predicate Inv(s: State) {
    && (forall t | t in s.sessions :: SessionInv(s, t))
    && (forall c | c in s.calls :: CallInv(s, c))
    && (forall a | a in s.minted :: a.epoch <= Epoch(s, a.player))
    && (forall chain | chain in s.newest :: s.newest[chain] in s.sessions && s.sessions[s.newest[chain]].chain == chain)
  }

  lemma CommitKeeps(s: State, c: CallId, renewed: Token, now: int)
    requires Inv(s)
    ensures Inv(AfterCommit(s, c, renewed, now))
  {
    var u := AfterCommit(s, c, renewed, now);
    if Redeems(s, c, renewed) {
      var t := s.calls[c].token;
      assert CallInv(s, c) && SessionInv(s, t);
      forall x | x in u.sessions ensures SessionInv(u, x) {
        if x != renewed { assert SessionInv(s, x); }
      }
      forall d | d in u.calls ensures CallInv(u, d) { assert CallInv(s, d); }
    } else {
      forall x | x in u.sessions ensures SessionInv(u, x) { assert SessionInv(s, x); }
      forall d | d in u.calls ensures CallInv(u, d) { assert CallInv(s, d); }
    }
  }

  lemma MitigateKeeps(s: State, p: Player)
    requires Inv(s)
    ensures Inv(Mitigate(s, p))
    ensures forall t | t in s.sessions && s.sessions[t].player == p :: Mitigate(s, p).sessions[t].status != Live
    ensures forall a | a in s.minted && a.player == p :: a.epoch < Epoch(Mitigate(s, p), p)
  {
    var u := Mitigate(s, p);
    forall t | t in u.sessions ensures SessionInv(u, t) { assert SessionInv(s, t); }
    forall c | c in u.calls ensures CallInv(u, c) { assert CallInv(s, c); }
  }

  lemma ReadKeeps(s: State, c: CallId, t: Token, banned: bool, now: int)
    requires Inv(s)
    ensures Inv(AfterRead(s, c, t, banned, now))
  {
    var u := AfterRead(s, c, t, banned, now);
    if c !in s.calls && Reuse(s, t) {
      MitigateKeeps(s, s.sessions[t].player);
    } else {
      forall x | x in u.sessions ensures SessionInv(u, x) { assert SessionInv(s, x); }
      forall d | d in u.calls ensures CallInv(u, d) { if d in s.calls { assert CallInv(s, d); } }
    }
  }

  lemma LoginKeeps(s: State, p: Player, chain: Chain, t: Token, now: int)
    requires Inv(s)
    ensures Inv(AfterLogin(s, p, chain, t, now))
  {
    var u := AfterLogin(s, p, chain, t, now);
    forall x | x in u.sessions ensures SessionInv(u, x) { if x in s.sessions { assert SessionInv(s, x); } }
    forall d | d in u.calls ensures CallInv(u, d) { assert CallInv(s, d); }
  }

  lemma LogoutKeeps(s: State, t: Token)
    requires Inv(s)
    ensures Inv(AfterLogout(s, t))
  {
    var u := AfterLogout(s, t);
    forall x | x in u.sessions ensures SessionInv(u, x) { assert SessionInv(s, x); }
    forall d | d in u.calls ensures CallInv(u, d) { assert CallInv(s, d); }
  }

  lemma StepKeeps(s: State, e: Event)
    requires Inv(s)
    ensures Inv(Next(s, e))
  {
    match e
    case Login(p, chain, t, now) => LoginKeeps(s, p, chain, t, now);
    case Read(c, t, banned, now) => ReadKeeps(s, c, t, banned, now);
    case Commit(c, renewed, now) => CommitKeeps(s, c, renewed, now);
    case Logout(t) => LogoutKeeps(s, t);
    case PasswordReset(p) => MitigateKeeps(s, p);
    case SetGone(p, gone) => GoneKeeps(s, Next(s, e));
  }

  lemma GoneKeeps(s: State, u: State)
    requires Inv(s) && u == s.(gone := u.gone)
    ensures Inv(u)
  {
    forall x | x in u.sessions ensures SessionInv(u, x) { assert SessionInv(s, x); }
    forall d | d in u.calls ensures CallInv(u, d) { assert CallInv(s, d); }
  }

  lemma {:induction false} RunKeeps(s: State, es: seq<Event>)
    requires Inv(s)
    ensures Inv(Run(s, es))
  {
    if es != [] {
      RunKeeps(s, es[..|es| - 1]);
      StepKeeps(Run(s, es[..|es| - 1]), es[|es| - 1]);
    }
  }

  lemma RunSnoc(s: State, es: seq<Event>, e: Event)
    ensures Run(s, es + [e]) == Next(Run(s, es), e)
  {
    assert (es + [e])[..|es|] == es;
  }

  // ---- one redemption per token, one live token per chain -----------------------

  /** This step exchanges token t for a new one. */
  predicate RedeemsToken(s: State, e: Event, t: Token) {
    e.Commit? && Redeems(s, e.call, e.renewed) && s.calls[e.call].token == t
  }

  function Redemptions(s: State, es: seq<Event>, t: Token): nat {
    if es == [] then 0
    else Redemptions(s, es[..|es| - 1], t) + (if RedeemsToken(Run(s, es[..|es| - 1]), es[|es| - 1], t) then 1 else 0)
  }

  /** A token that has left the live state never comes back to it, and never vanishes. */
  lemma StepStatus(s: State, e: Event, t: Token)
    requires t in s.sessions
    ensures t in Next(s, e).sessions
    ensures Next(s, e).sessions[t].player == s.sessions[t].player && Next(s, e).sessions[t].chain == s.sessions[t].chain
    ensures s.sessions[t].status != Live ==> Next(s, e).sessions[t].status == s.sessions[t].status
    ensures RedeemsToken(s, e, t) ==> s.sessions[t].status == Live && Next(s, e).sessions[t].status == Rotated
  {
  }

  lemma {:induction false} RedemptionsAndStatus(s: State, es: seq<Event>, t: Token)
    requires Inv(s)
    ensures var u := Run(s, es);
            Redemptions(s, es, t) + (if t !in u.sessions || u.sessions[t].status == Live then 1 else 0) <= 1
  {
    if es != [] {
      var front, e := es[..|es| - 1], es[|es| - 1];
      RedemptionsAndStatus(s, front, t);
      RunKeeps(s, front);
      if t in Run(s, front).sessions { StepStatus(Run(s, front), e, t); }
    }
  }

  /** Over every interleaving of reads and conditional revokes, a refresh token
      is redeemed at most once. */
  lemma RedeemedAtMostOnce(s: State, es: seq<Event>, t: Token)
    requires Initial(s)
    ensures Redemptions(s, es, t) <= 1
  {
    RedemptionsAndStatus(s, es, t);
  }

  /** Each login's rotation chain has at most one live token: its newest. */
  lemma OneLivePerChain(s: State, es: seq<Event>, t1: Token, t2: Token)
    requires Initial(s)
    requires var u := Run(s, es);
             t1 in u.sessions && t2 in u.sessions && u.sessions[t1].chain == u.sessions[t2].chain
             && u.sessions[t1].status == Live && u.sessions[t2].status == Live
    ensures t1 == t2
    ensures var u := Run(s, es); u.sessions[t1].chain in u.newest && u.newest[u.sessions[t1].chain] == t1
  {
    RunKeeps(s, es);
    assert SessionInv(Run(s, es), t1) && SessionInv(Run(s, es), t2);
  }

  // ---- reuse --------------------------------------------------------------------

  lemma StepEpochGrows(s: State, e: Event, p: Player)
    ensures Epoch(s, p) <= Epoch(Next(s, e), p)
  {
  }

  lemma {:induction false} EpochGrows(s: State, es: seq<Event>, p: Player)
    ensures Epoch(s, p) <= Epoch(Run(s, es), p)
  {
    if es != [] {
      EpochGrows(s, es[..|es| - 1], p);
      StepEpochGrows(Run(s, es[..|es| - 1]), es[|es| - 1], p);
    }
  }

  /** Only live sessions and the epoch of this one player are touched. */
  ghost predicate HitsOnly(s: State, u: State, p: Player) {
    && u.sessions.Keys == s.sessions.Keys
    && (forall x | x in s.sessions && (s.sessions[x].player != p || s.sessions[x].status != Live) :: u.sessions[x] == s.sessions[x])
    && (forall q | q != p :: Epoch(u, q) == Epoch(s, q)) && Epoch(u, p) == Epoch(s, p) + 1
    && u.gone == s.gone && u.calls == s.calls && u.newest == s.newest && u.minted == s.minted
  }

  /** A player is disabled, unlinked or deleted by the last word on it. */
  lemma {:induction false} GoneByLastWord(s: State, es: seq<Event>, p: Player) returns (i: int)
    requires Initial(s)
    ensures i < |es| && (i >= 0 ==> es[i].SetGone? && es[i].player == p)
    ensures forall j | 0 <= j < |es| && i < j :: !(es[j].SetGone? && es[j].player == p)
    ensures p in Run(s, es).gone <==> i >= 0 && es[i].gone
  {
    var k := |es| - 1;
    if es == [] {
      i := -1;
    } else if es[k].SetGone? && es[k].player == p {
      i := k;
    } else {
      i := GoneByLastWord(s, es[..k], p);
      OthersGone(Run(s, es[..k]), es[k], p);
    }
  }

  lemma OthersGone(s: State, e: Event, p: Player)
    requires !(e.SetGone? && e.player == p)
    ensures p in Next(s, e).gone <==> p in s.gone
  {
  }

  /** A replayed rotated token leaves the player without a live session, ends
      every refresh in flight, and outdates for good every access token minted
      before, whatever happens afterwards. */
  lemma ReuseKillsFamily(s0: State, es: seq<Event>, c: CallId, t: Token, banned: bool, now: int, later: seq<Event>)
    requires Initial(s0) && Reuse(Run(s0, es), t) && c !in Run(s0, es).calls
    ensures var s := Run(s0, es); var p := s.sessions[t].player; var u := Next(s, Read(c, t, banned, now));
            && (forall x | x in u.sessions && u.sessions[x].player == p :: u.sessions[x].status != Live)
            && (forall d, renewed | d in u.calls && u.calls[d].token in u.sessions && u.sessions[u.calls[d].token].player == p ::
                  !Redeems(u, d, renewed))
            && (forall a | a in s.minted && a.player == p :: a.epoch < Epoch(Run(u, later), p))
            && HitsOnly(s, u, p)
  {
    var s := Run(s0, es);
    RunKeeps(s0, es);
    var p := s.sessions[t].player;
    MitigateKeeps(s, p);
    EpochGrows(Mitigate(s, p), later, p);
  }

  /** A password reset does the same to the player's sessions, refreshes in
      flight and access tokens. */
  lemma ResetKillsFamily(s0: State, es: seq<Event>, p: Player, later: seq<Event>)
    requires Initial(s0)
    ensures var s := Run(s0, es); var u := Next(s, PasswordReset(p));
            && (forall x | x in u.sessions && u.sessions[x].player == p :: u.sessions[x].status != Live)
            && (forall d, renewed | d in u.calls && u.calls[d].token in u.sessions && u.sessions[u.calls[d].token].player == p ::
                  !Redeems(u, d, renewed))
            && (forall a | a in s.minted && a.player == p :: a.epoch < Epoch(Run(u, later), p))
            && HitsOnly(s, u, p)
  {
    var s := Run(s0, es);
    RunKeeps(s0, es);
    MitigateKeeps(s, p);
    EpochGrows(Mitigate(s, p), later, p);
  }

  /** The refresh presents the newest token of its chain. */
  ghost predicate PresentsNewest(s: State, e: Event) {
    e.Read? && e.token in s.sessions ==>
      s.sessions[e.token].chain in s.newest && s.newest[s.sessions[e.token].chain] == e.token
  }

  /** A client that presents its newest token never triggers reuse detection,
      whatever any other client does. */
  lemma NewestNeverReuses(s: State, es: seq<Event>, e: Event)
    requires Initial(s) && e.Read? && PresentsNewest(Run(s, es), e)
    ensures !Reuse(Run(s, es), e.token)
  {
    RunKeeps(s, es);
    if e.token in Run(s, es).sessions { assert SessionInv(Run(s, es), e.token); }
  }

  ghost predicate Honest(s: State, es: seq<Event>) {
    forall i | 0 <= i < |es| :: PresentsNewest(Run(s, es[..i]), es[i])
  }

  /** If all clients do, no session is ever killed and no access token outdated. */
  lemma {:induction false} HonestLosesNothing(s: State, es: seq<Event>)
    requires Initial(s) && Honest(s, es) && (forall i | 0 <= i < |es| :: !es[i].PasswordReset?)
    ensures Run(s, es).epochs == s.epochs
    ensures forall t | t in Run(s, es).sessions :: Run(s, es).sessions[t].status != Killed
  {
    if es != [] {
      var front := es[..|es| - 1];
      forall i | 0 <= i < |front| ensures PresentsNewest(Run(s, front[..i]), front[i]) && !front[i].PasswordReset? {
        assert front[..i] == es[..i] && front[i] == es[i];
      }
      HonestLosesNothing(s, front);
      assert PresentsNewest(Run(s, es[..|es| - 1]), es[|es| - 1]);
      if es[|es| - 1].Read? { NewestNeverReuses(s, front, es[|es| - 1]); }
      NoReuseNoKill(Run(s, front), es[|es| - 1]);
    }
  }

  lemma NoReuseNoKill(s: State, e: Event)
    requires !e.PasswordReset? && (e.Read? ==> !Reuse(s, e.token))
    ensures Next(s, e).epochs == s.epochs
    ensures forall t | t in Next(s, e).sessions ::
              Next(s, e).sessions[t].status == Killed ==> t in s.sessions && s.sessions[t].status == Killed
  {
  }

  // ---- the handlers -------------------------------------------------------------

  ghost predicate SameCall(s: State, u: State, c: CallId) {
    (c in u.calls <==> c in s.calls) && (c in s.calls && c in u.calls ==> u.calls[c] == s.calls[c])
  }

  ghost predicate SessionsPersist(s: State, u: State) {
    forall t | t in s.sessions ::
      t in u.sessions && u.sessions[t].player == s.sessions[t].player && u.sessions[t].chain == s.sessions[t].chain
  }

  lemma StepPersists(s: State, e: Event, c: CallId)
    requires !(e.Read? && e.call == c) && !(e.Commit? && e.call == c)
    ensures SameCall(s, Next(s, e), c) && SessionsPersist(s, Next(s, e))
  {
  }

  /** The token of a known player, live and not expired. */
  predicate Good(s: State, t: Token, now: int) {
    Known(s, t) && s.sessions[t].status == Live && s.sessions[t].expires >= now
  }

  datatype LoginError = InvalidCredentials | Banned

  datatype RefreshError = InvalidRefresh | AccountBanned

  datatype Grant = Grant(access: Access, refresh: Token)

  /** No conditional revoke of the call among the events from n on. */
  ghost predicate NoCommit(h: seq<Event>, n: nat, c: CallId) {
    n <= |h| && forall i | n <= i < |h| :: !(h[i].Commit? && h[i].call == c)
  }

  /** The call redeemed the token by one of the events from n on. */
  ghost predicate RedeemedSince(s: State, h: seq<Event>, n: nat, c: CallId, t: Token) {
    exists i :: n <= i < |h| && h[i].Commit? && h[i].call == c && RedeemsToken(Run(s, h[..i]), h[i], t)
  }

  /** The conditional revoke finds no live row for the token, or the new one taken. */
  ghost predicate RefusedAt(s: State, t: Token, renewed: Token) {
    t in s.sessions && (s.sessions[t].status != Live || renewed in s.sessions)
  }

  lemma OnlyLast(s: State, h: seq<Event>, e: Event, n: nat, c: CallId, t: Token)
    requires NoCommit(h, n, c) && e.Commit? && e.call == c
    ensures RedeemedSince(s, h + [e], n, c, t) <==> RedeemsToken(Run(s, h), e, t)
  {
    var all := h + [e];
    assert all[..|h|] == h && all[|h|] == e;
    assert forall i | n <= i < |h| :: all[i] == h[i];
  }

  class AuthService {
    var world: State
    ghost const origin: State
    ghost var history: seq<Event>

    ghost predicate Valid()
      reads this
    {
      Initial(origin) && world == Run(origin, history) && Inv(world)
    }

    constructor ()
      ensures Valid() && Initial(world)
    {
      var start := State(map[], {}, map[], map[], map[], {});
      world, origin, history := start, start, [];
    }

    /** One committed transaction step. */
    method Do(e: Event)
      requires Valid()
      modifies this
      ensures Valid() && history == old(history) + [e] && world == Next(old(world), e)
    {
      RunSnoc(origin, history, e);
      StepKeeps(world, e);
      world := Next(world, e);
      history := history + [e];
    }

    /** Anything else that runs meanwhile, except the refresh c itself. */
    method Others(c: CallId)
      requires Valid()
      modifies this
      ensures Valid() && SameCall(old(world), world, c) && SessionsPersist(old(world), world)
      ensures forall n | 0 <= n <= |old(history)| && NoCommit(old(history), n, c) :: NoCommit(history, n, c)
    {
      var n: nat := *;
      while n > 0
        invariant Valid() && SameCall(old(world), world, c) && SessionsPersist(old(world), world)
        invariant forall k | 0 <= k <= |old(history)| && NoCommit(old(history), k, c) :: NoCommit(history, k, c)
      {
        var e: Event := *;
        if !(e.Read? && e.call == c) && !(e.Commit? && e.call == c) {
          StepPersists(world, e, c);
          Do(e);
        }
        n := n - 1;
      }
    }

    /** authLogin for a right password and a verified email. */
    method LogIn(p: Player, chain: Chain, token: Token, banned: bool, now: int) returns (r: Result<Grant, LoginError>)
      requires Valid() && token !in world.sessions && chain !in world.newest
      modifies this
      ensures Valid() && (r.Err? ==> world == old(world))
      ensures r == Err(InvalidCredentials) <==> p in old(world.gone)
      ensures r == Err(Banned) <==> banned && p !in old(world.gone)
      ensures r.Ok? ==>
                (&& r.value == Grant(Access(p, Epoch(world, p)), token) && r.value.access in world.minted
                 && world.sessions == old(world.sessions)[token := Session(p, chain, Live, now + REFRESH_TTL)])
    {
      if p in world.gone { return Err(InvalidCredentials); }
      if banned { return Err(Banned); }
      Do(Login(p, chain, token, now));
      r := Ok(Grant(Access(p, Epoch(world, p)), token));
    }

    /** authRefresh: other requests may run between the read of the session and
        the conditional revoke. */
    method Refresh(c: CallId, token: Token, banned: bool, renewed: Token, now: int)
      returns (r: Result<Grant, RefreshError>)
      requires Valid() && c !in world.calls
      modifies this
      ensures Valid() && c !in world.calls
      ensures r.Ok? ==>
                (&& token in world.sessions && world.sessions[token].status == Rotated
                 && renewed in world.sessions && world.sessions[renewed].status == Live
                 && world.sessions[renewed].chain == world.sessions[token].chain
                 && r.value == Grant(Access(world.sessions[token].player, Epoch(world, world.sessions[token].player)), renewed)
                 && old(Known(world, token)) && old(world.sessions)[token].status == Live && !banned
                 && old(world.sessions)[token].expires >= now)
      ensures r.Ok? ==> old(token in world.sessions && world.sessions[token].player !in world.gone)
      ensures old(token !in world.sessions || world.sessions[token].player in world.gone) ==>
                r == Err(InvalidRefresh) && world == old(world)
      // it succeeds exactly if its own conditional revoke redeemed the token
      ensures r.Ok? <==> RedeemedSince(origin, history, |old(history)|, c, token)
      // a good token is refused only if that revoke found it no longer live
      ensures old(Good(world, token, now)) && !banned && r.Err? ==>
                (&& r == Err(InvalidRefresh) && history != [] && history[|history| - 1] == Commit(c, renewed, now)
                 && |old(history)| < |history| && RefusedAt(Run(origin, history[..|history| - 1]), token, renewed))
      ensures r == Err(AccountBanned) <==> banned && old(Good(world, token, now))
      ensures !old(Known(world, token)) ==> r == Err(InvalidRefresh) && world == old(world)
      ensures old(token in world.sessions && world.sessions[token].player !in world.gone
                  && world.sessions[token].status == Rotated) ==>
                (&& r == Err(InvalidRefresh)
                 && world == old(Mitigate(world, world.sessions[token].player)))
    {
      if !Known(world, token) { return Err(InvalidRefresh); }
      var row := world.sessions[token];
      Do(Read(c, token, banned, now));
      if row.status != Live || row.expires < now { return Err(InvalidRefresh); }
      if banned { return Err(AccountBanned); }
      r := FinishRefresh(c, token, renewed, now, |old(history)|);
    }

    /** The second half of a refresh whose events begin at `start`. */
    method FinishRefresh(c: CallId, token: Token, renewed: Token, now: int, ghost start: nat)
      returns (r: Result<Grant, RefreshError>)
      requires Valid() && c in world.calls && world.calls[c].token == token && token in world.sessions
      requires NoCommit(history, start, c)
      modifies this
      ensures Valid() && c !in world.calls && start < |history|
      ensures r.Ok? <==> RedeemedSince(origin, history, start, c, token)
      ensures r.Err? ==>
                (&& r == Err(InvalidRefresh) && history[|history| - 1] == Commit(c, renewed, now)
                 && RefusedAt(Run(origin, history[..|history| - 1]), token, renewed))
      ensures r.Ok? ==>
                (&& token in world.sessions && world.sessions[token].status == Rotated
                 && renewed in world.sessions && world.sessions[renewed].status == Live
                 && world.sessions[renewed].chain == world.sessions[token].chain
                 && r.value == Grant(Access(world.sessions[token].player, Epoch(world, world.sessions[token].player)), renewed))
    {
      var player, epoch := world.sessions[token].player, world.calls[c].epoch;
      Others(c);
      ghost var before := history;
      OnlyLast(origin, before, Commit(c, renewed, now), start, c, token);
      var redeemed := Redeem(c, renewed, now);
      assert history[..|history| - 1] == before;
      if !redeemed { return Err(InvalidRefresh); }
      r := Ok(Grant(Access(player, epoch), renewed));
    }

    /** The conditional revoke and, if it finds its row live, the new session. */
    method Redeem(c: CallId, renewed: Token, now: int) returns (redeemed: bool)
      requires Valid() && c in world.calls
      modifies this
      ensures Valid() && world.calls == old(world.calls) - {c} && world.epochs == old(world.epochs)
      ensures history == old(history) + [Commit(c, renewed, now)]
      ensures redeemed == old(Redeems(world, c, renewed))
      ensures redeemed ==>
                (var t := old(world.calls)[c].token; var was := old(world.sessions)[t];
                 && world.sessions == old(world.sessions)[t := was.(status := Rotated)]
                                                         [renewed := Session(was.player, was.chain, Live, now + REFRESH_TTL)]
                 && renewed != t && old(world.calls)[c].epoch == Epoch(world, was.player))
      ensures !redeemed ==> world.sessions == old(world.sessions)
    {
      redeemed := Redeems(world, c, renewed);
      assert CallInv(world, c);
      Do(Commit(c, renewed, now));
    }

    /** authLogout: an unknown or already revoked token is no error. */
    method LogOut(token: Token)
      requires Valid()
      modifies this
      ensures Valid() && world.epochs == old(world.epochs) && world.calls == old(world.calls)
      ensures token in world.sessions ==> world.sessions[token].status != Live
      ensures forall t | t in old(world.sessions) && t != token ::
                t in world.sessions && world.sessions[t] == old(world.sessions)[t]
    {
      Do(Logout(token));
    }
  }
}
