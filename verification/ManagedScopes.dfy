/** API-key scopes: the changes reported and the sequence stored are computed by
    two separate functions that must agree. */
module ManagedScopes {
  import opened Wrappers
  import opened SortedStrings

  const MANAGED_SCOPES: seq<string> := ["matchmaker", "fleet", "p2p_relay"]

  datatype Change = Change(scope: string, grant: bool)

  predicate IsManaged(scope: string) { scope in MANAGED_SCOPES }

  /** The managed scopes, in their fixed order, whose membership has to flip. */
  function ChangesFor(managed: seq<string>, current: seq<string>, desired: seq<string>): seq<Change> {
    if managed == [] then []
    else
      var scope := managed[|managed| - 1];
      ChangesFor(managed[..|managed| - 1], current, desired)
      + (if (scope in current) == (scope in desired && IsManaged(scope)) then [] else [Change(scope, scope in desired)])
  }

  /** The unmanaged scopes, each once, at its first place. */
  function Unmanaged(current: seq<string>): seq<string> {
    if current == [] then []
    else
      var scope := current[|current| - 1];
      var front := Unmanaged(current[..|current| - 1]);
      if IsManaged(scope) || scope in front then front else front + [scope]
  }

  function Wanted(managed: seq<string>, desired: seq<string>): seq<string> {
    if managed == [] then []
    else
      var scope := managed[|managed| - 1];
      Wanted(managed[..|managed| - 1], desired) + (if scope in desired then [scope] else [])
  }

  function NextScopes(current: seq<string>, desired: seq<string>): seq<string> {
    Unmanaged(current) + Wanted(MANAGED_SCOPES, desired)
  }

  /** Carrying out the reported changes on the set of scopes. */
  function Perform(scopes: set<string>, changes: seq<Change>): set<string> {
    if changes == [] then scopes
    else
      var c := changes[|changes| - 1];
      var before := Perform(scopes, changes[..|changes| - 1]);
      if c.grant then before + {c.scope} else before - {c.scope}
  }

  lemma ManagedNoDup()
    ensures NoDup(MANAGED_SCOPES)
  {
    assert MANAGED_SCOPES[0][0] != MANAGED_SCOPES[1][0] && MANAGED_SCOPES[0][0] != MANAGED_SCOPES[2][0];
    assert MANAGED_SCOPES[1][0] != MANAGED_SCOPES[2][0];
  }

  lemma {:induction false} UnmanagedMembers(current: seq<string>)
    ensures NoDup(Unmanaged(current))
    ensures forall x :: x in Unmanaged(current) <==> x in current && !IsManaged(x)
  {
    if current != [] {
      UnmanagedMembers(current[..|current| - 1]);
      assert current == current[..|current| - 1] + [current[|current| - 1]];
    }
  }

  lemma {:induction false} WantedMembers(managed: seq<string>, desired: seq<string>)
    ensures forall x :: x in Wanted(managed, desired) <==> x in managed && x in desired
    ensures NoDup(managed) ==> NoDup(Wanted(managed, desired))
  {
    if managed != [] {
      WantedMembers(managed[..|managed| - 1], desired);
      assert managed == managed[..|managed| - 1] + [managed[|managed| - 1]];
      if NoDup(managed) {
        assert NoDup(managed[..|managed| - 1]);
        assert managed[|managed| - 1] !in managed[..|managed| - 1];
      }
    }
  }

  lemma {:induction false} PerformChanges(managed: seq<string>, current: seq<string>, desired: seq<string>, scopes: set<string>)
    requires forall m | m in managed :: IsManaged(m)
    requires forall m | m in managed :: m in scopes <==> m in current
    ensures forall x :: x in Perform(scopes, ChangesFor(managed, current, desired)) <==>
              if x in managed then x in desired else x in scopes
  {
    if managed != [] {
      var front, scope := managed[..|managed| - 1], managed[|managed| - 1];
      assert managed == front + [scope];
      PerformChanges(front, current, desired, scopes);
      var rest := ChangesFor(front, current, desired);
      var all := ChangesFor(managed, current, desired);
      if all != rest {
        assert all == rest + [Change(scope, scope in desired)];
        assert all[..|all| - 1] == rest;
      }
    }
  }

  /** The reported changes lead to exactly the scopes stored. */
  lemma ChangesAgree(current: seq<string>, desired: seq<string>)
    ensures Perform(Elements(current), ChangesFor(MANAGED_SCOPES, current, desired)) == Elements(NextScopes(current, desired))
  {
    PerformChanges(MANAGED_SCOPES, current, desired, Elements(current));
    UnmanagedMembers(current);
    WantedMembers(MANAGED_SCOPES, desired);
  }

  /** The stored sequence has no duplicates, keeps every unmanaged scope in
      order, and holds exactly the desired managed ones. */
  lemma NextScopesShape(current: seq<string>, desired: seq<string>)
    ensures var next := NextScopes(current, desired);
            && NoDup(next)
            && Unmanaged(next) == Unmanaged(current)
            && (forall x :: x in next <==> if IsManaged(x) then x in desired else x in current)
  {
    ManagedNoDup();
    UnmanagedMembers(current);
    WantedMembers(MANAGED_SCOPES, desired);
    UnmanagedAppend(Unmanaged(current), Wanted(MANAGED_SCOPES, desired));
    UnmanagedFixed(Unmanaged(current));
    NoDupConcat(Unmanaged(current), Wanted(MANAGED_SCOPES, desired));
  }

  lemma NoDupConcat(s: seq<string>, t: seq<string>)
    requires NoDup(s) && NoDup(t) && forall x | x in s :: x !in t
    ensures NoDup(s + t)
  {
    forall i, j | 0 <= i < j < |s + t| ensures (s + t)[i] != (s + t)[j] {
      if i < |s| <= j { assert s[i] in s && t[j - |s|] in t; }
    }
  }

  lemma {:induction false} UnmanagedFixed(s: seq<string>)
    requires NoDup(s) && forall x | x in s :: !IsManaged(x)
    ensures Unmanaged(s) == s
  {
    if s != [] {
      var front := s[..|s| - 1];
      UnmanagedFixed(front);
      assert s == front + [s[|s| - 1]];
      assert s[|s| - 1] !in front;
    }
  }

  lemma {:induction false} UnmanagedAppend(s: seq<string>, t: seq<string>)
    requires forall x | x in t :: IsManaged(x)
    ensures Unmanaged(s + t) == Unmanaged(s)
  {
    if t == [] {
      assert s + t == s;
    } else {
      assert (s + t)[..|s + t| - 1] == s + t[..|t| - 1];
      UnmanagedAppend(s, t[..|t| - 1]);
    }
  }

  lemma {:induction false} NoChangesIff(managed: seq<string>, current: seq<string>, desired: seq<string>)
    requires forall m | m in managed :: IsManaged(m)
    ensures ChangesFor(managed, current, desired) == [] <==> forall m | m in managed :: m in current <==> m in desired
  {
    if managed != [] {
      NoChangesIff(managed[..|managed| - 1], current, desired);
      assert managed == managed[..|managed| - 1] + [managed[|managed| - 1]];
    }
  }

  /** Running either function again on its own result changes nothing. */
  lemma SecondRunChangesNothing(current: seq<string>, desired: seq<string>)
    ensures var next := NextScopes(current, desired);
            ChangesFor(MANAGED_SCOPES, next, desired) == [] && NextScopes(next, desired) == next
  {
    NextScopesShape(current, desired);
    NoChangesIff(MANAGED_SCOPES, NextScopes(current, desired), desired);
  }

  // ---- the functions as written --------------------------------------------------------

  method ManagedSet(desired: seq<string>) returns (s: set<string>)
    ensures s == set x | x in desired && IsManaged(x)
  {
    s := {};
    for i := 0 to |desired|
      invariant s == set x | x in desired[..i] && IsManaged(x)
    {
      assert desired[..i + 1] == desired[..i] + [desired[i]];
      if IsManaged(desired[i]) { s := s + {desired[i]}; }
    }
    assert desired[..|desired|] == desired;
  }

  method ManagedScopeChanges(current: seq<string>, desired: seq<string>) returns (changes: seq<Change>)
    ensures changes == ChangesFor(MANAGED_SCOPES, current, desired)
  {
    var desiredSet := ManagedSet(desired);
    changes := [];
    for i := 0 to |MANAGED_SCOPES|
      invariant changes == ChangesFor(MANAGED_SCOPES[..i], current, desired)
    {
      var scope := MANAGED_SCOPES[i];
      assert MANAGED_SCOPES[..i + 1][..i] == MANAGED_SCOPES[..i];
      var wants := scope in desiredSet;
      if (scope in current) == wants { continue; }
      changes := changes + [Change(scope, wants)];
    }
    assert MANAGED_SCOPES[..|MANAGED_SCOPES|] == MANAGED_SCOPES;
  }

  method ApplyManagedScopes(current: seq<string>, desired: seq<string>) returns (next: seq<string>)
    ensures next == NextScopes(current, desired)
  {
    next := [];
    var desiredSet := ManagedSet(desired);
    for i := 0 to |current|
      invariant next == Unmanaged(current[..i])
    {
      assert current[..i + 1][..i] == current[..i];
      if IsManaged(current[i]) { continue; }
      if current[i] !in next { next := next + [current[i]]; }
    }
    assert current[..|current|] == current;
    ghost var kept := next;
    for i := 0 to |MANAGED_SCOPES|
      invariant next == kept + Wanted(MANAGED_SCOPES[..i], desired)
    {
      assert MANAGED_SCOPES[..i + 1][..i] == MANAGED_SCOPES[..i];
      if MANAGED_SCOPES[i] in desiredSet { next := next + [MANAGED_SCOPES[i]]; }
    }
    assert MANAGED_SCOPES[..|MANAGED_SCOPES|] == MANAGED_SCOPES;
  }

  /** parseManagedAPIKeyScopes: each value once, in order; one unknown value spoils all. */
  method ParseManagedScopes(values: seq<string>) returns (r: Option<seq<string>>)
    ensures r.None? <==> exists v | v in values :: !IsManaged(v)
    ensures r.Some? ==> NoDup(r.value) && Elements(r.value) == Elements(values)
  {
    var out: seq<string> := [];
    for i := 0 to |values|
      invariant NoDup(out) && Elements(out) == Elements(values[..i])
      invariant forall v | v in values[..i] :: IsManaged(v)
    {
      assert values[..i + 1] == values[..i] + [values[i]];
      if !IsManaged(values[i]) { return None; }
      assert Elements(values[..i + 1]) == Elements(values[..i]) + {values[i]};
      if values[i] in out {
        assert values[i] in Elements(out);
        continue;
      }
      assert Elements(out + [values[i]]) == Elements(out) + {values[i]};
      out := out + [values[i]];
    }
    assert values[..|values|] == values;
    r := Some(out);
  }
}
