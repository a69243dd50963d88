/** The cache of browser origins that projects list. Answers come from memory
    until the list is a TTL old; a reload is made under the lock and a failed one
    keeps the last list. Instants are nanoseconds. */
module OriginCache {
  import opened Wrappers

  const TTL := 30_000_000_000

  /** loadedAt is None until the first load (the zero time). */
  datatype Cache = Cache(projects: set<string>, loadedAt: Option<int>)

  /** A lookup that got past the static list: its first clock reading, and for
      the load it then makes or would make the second reading, the instant at
      which the load reads the source, the instant at which it returns, and its
      outcome. */
  datatype Ask = Ask(first: int, second: int, moment: int, done: int, list: Option<seq<string>>)

  const EMPTY := Cache({}, None)

  function Origins(list: seq<string>): set<string> { set o | o in list }

  /** The list is missing or at least a TTL old. */
  predicate Due(c: Cache, now: int) {
    c.loadedAt.Some? ==> now - c.loadedAt.value >= TTL
  }

  function AfterAsk(c: Cache, a: Ask): Cache {
    if !Due(c, a.first) then c
    else Cache(if a.list.Some? then Origins(a.list.value) else c.projects, Some(a.second))
  }

  function Run(asks: seq<Ask>): Cache {
    if asks == [] then EMPTY else AfterAsk(Run(asks[..|asks| - 1]), asks[|asks| - 1])
  }

  /** The asks of a run that load, in order. */
  function Loads(asks: seq<Ask>): seq<Ask> {
    if asks == [] then []
    else
      var init := asks[..|asks| - 1];
      if Due(Run(init), asks[|asks| - 1].first) then Loads(init) + [asks[|asks| - 1]] else Loads(init)
  }

  /** The latest of the loads that succeeded. */
  function LatestList(loads: seq<Ask>): Option<seq<string>> {
    if loads == [] then None
    else if loads[|loads| - 1].list.Some? then loads[|loads| - 1].list
    else LatestList(loads[..|loads| - 1])
  }

  /** The last ask of a run loads. */
  predicate Loading(asks: seq<Ask>)
    requires asks != []
  {
    Due(Run(asks[..|asks| - 1]), asks[|asks| - 1].first)
  }

  /** The instant at which the last ask of a run is answered: the lock is held
      until a load returns. */
  function AnsweredAt(asks: seq<Ask>): int
    requires asks != []
  {
    if Loading(asks) then asks[|asks| - 1].done else asks[|asks| - 1].first
  }

  /** The clock does not go back, within a load and from one ask to the next. */
  predicate Ordered(asks: seq<Ask>) {
    asks == [] ||
    (var init, a := asks[..|asks| - 1], asks[|asks| - 1];
     && Ordered(init)
     && (init != [] ==> AnsweredAt(init) <= a.first)
     && (Loading(asks) ==> a.first <= a.second <= a.moment <= a.done))
  }

  /** The cache remembers when the last load started, and holds the list of the
      latest successful one. */
  lemma {:induction false} Remembers(asks: seq<Ask>)
    ensures var loads := Loads(asks);
            && Run(asks).loadedAt == (if loads == [] then None else Some(loads[|loads| - 1].second))
            && Run(asks).projects == (match LatestList(loads) case Some(list) => Origins(list) case None => {})
  {
    if asks != [] {
      var init := asks[..|asks| - 1];
      Remembers(init);
      var loads := Loads(asks);
      if Due(Run(init), asks[|asks| - 1].first) {
        assert loads[..|loads| - 1] == Loads(init);
      }
    }
  }

  /** The last load of a run returned before the run's last answer. */
  lemma {:induction false} LastLoadBefore(asks: seq<Ask>)
    requires Ordered(asks) && Loads(asks) != []
    ensures var load := Loads(asks)[|Loads(asks)| - 1]; load.second <= load.moment <= load.done <= AnsweredAt(asks)
  {
    if !Loading(asks) { LastLoadBefore(asks[..|asks| - 1]); }
  }

  /** Successive loads start at least a TTL apart, even when they fail. */
  lemma {:induction false} LoadsApart(asks: seq<Ask>, i: nat)
    requires Ordered(asks) && i + 1 < |Loads(asks)|
    ensures Loads(asks)[i + 1].second - Loads(asks)[i].second >= TTL
  {
    var init := asks[..|asks| - 1];
    Remembers(init);
    if i + 1 < |Loads(init)| { LoadsApart(init, i); }
  }

  /** How long ago, at the last answer, the last load had read the source. */
  function Age(asks: seq<Ask>): int
    requires asks != [] && Loads(asks) != []
  {
    AnsweredAt(asks) - Loads(asks)[|Loads(asks)| - 1].moment
  }

  /** If the last load succeeded, the answer is what the source held at its
      moment. An answer from memory is always less than a TTL old; one that
      waited for its own load is exactly if that load was fast enough. */
  lemma {:induction false} AnswersFresh(asks: seq<Ask>, source: int -> set<string>)
    requires Ordered(asks) && asks != []
    requires forall a | a in Loads(asks) :: a.list.Some? ==> Origins(a.list.value) == source(a.moment)
    ensures var loads, last := Loads(asks), asks[|asks| - 1];
            && loads != [] && 0 <= Age(asks)
            && (loads[|loads| - 1].list.Some? ==> Run(asks).projects == source(AnsweredAt(asks) - Age(asks)))
            && (Age(asks) < TTL <==> !(Loading(asks) && last.done - last.moment >= TTL))
  {
    var init := asks[..|asks| - 1];
    Remembers(init);
    Remembers(asks);
    LastLoadBefore(asks);
    var loads := Loads(asks);
    assert loads[|loads| - 1] in loads;
    if !Loading(asks) { LastLoadBefore(init); }
  }

  /** A slow load gives an answer that the source need not have held at any
      moment of the last TTL. */
  lemma SlowLoadStale(asks: seq<Ask>, slow: Ask) returns (source: int -> set<string>)
    requires Due(Run(asks), slow.first) && slow.list.Some? && slow.done - slow.moment >= TTL
    ensures source(slow.moment) == Origins(slow.list.value) == Run(asks + [slow]).projects
    ensures AnsweredAt(asks + [slow]) == slow.done
    ensures forall m | slow.done - TTL < m <= slow.done :: source(m) != Run(asks + [slow]).projects
  {
    var listed := Origins(slow.list.value);
    var other := if listed == {} then {"https://example.com"} else {};
    source := m => if m <= slow.moment then listed else other;
    assert (asks + [slow])[..|asks|] == asks;
  }

  /** A load that fails leaves every answer as it was, for a TTL. */
  lemma FailureKeepsAnswers(asks: seq<Ask>, failed: Ask, later: Ask)
    requires Due(Run(asks), failed.first) && failed.list.None? && later.first - failed.second < TTL
    ensures Run(asks + [failed]).projects == Run(asks).projects
    ensures Run(asks + [failed, later]) == Run(asks + [failed])
  {
    assert (asks + [failed])[..|asks|] == asks;
    assert (asks + [failed, later])[..|asks| + 1] == asks + [failed];
  }

  // ---- originSet -----------------------------------------------------------------------

  class OriginSet {
    const env: seq<string>
    const wildcard: bool
    var projects: set<string>
    var loadedAt: Option<int>
    ghost var asks: seq<Ask>

    ghost predicate Valid()
      reads this
    {
      Cache(projects, loadedAt) == Run(asks) && (wildcard <==> "*" in env)
    }

    constructor (env: seq<string>)
      ensures Valid() && this.env == env && asks == []
    {
      this.env, wildcard := env, "*" in env;
      projects, loadedAt, asks := {}, None, [];
    }

    /** projectOrigins: the clock readings and the load are the environment's,
        given as one ask. */
    method ProjectOrigins(a: Ask) returns (r: set<string>)
      requires Valid()
      modifies this
      ensures Valid() && asks == old(asks) + [a] && r == projects
      ensures Loads(asks) == if Due(Run(old(asks)), a.first) then Loads(old(asks)) + [a] else Loads(old(asks))
    {
      assert (asks + [a])[..|asks|] == asks;
      var due := loadedAt.None? || a.first - loadedAt.value >= TTL;
      asks := asks + [a];
      if !due { return projects; }
      loadedAt := Some(a.second);
      if a.list.None? { return projects; }
      projects := {};
      for i := 0 to |a.list.value|
        invariant projects == Origins(a.list.value[..i])
        invariant loadedAt == Some(a.second) && asks == old(asks) + [a]
      {
        projects := projects + {a.list.value[i]};
      }
      assert a.list.value[..|a.list.value|] == a.list.value;
      r := projects;
    }

    /** allowed: the static list first, which makes no load. */
    method Allowed(origin: string, a: Ask) returns (ok: bool)
      requires Valid()
      modifies this
      ensures Valid()
      ensures asks == if "*" in env || origin in env then old(asks) else old(asks) + [a]
      ensures ok <==> "*" in env || origin in env || origin in Run(asks).projects
    {
      if wildcard || origin in env { return true; }
      var listed := ProjectOrigins(a);
      ok := origin in listed;
    }
  }
}
