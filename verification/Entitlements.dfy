/** Declarative entitlements: a diff against the stored tier and grants is
    applied to reach a desired state; unmanaged grants are never touched. */
module Entitlements {
  import opened Wrappers
  import opened SortedStrings

  const MANAGED: seq<string> := ["p2p_relay", "dedicated_servers"]
  const TIER_MAX: int := 3
  const GRANT_REASON: string := "billing entitlement"

  datatype State = State(tier: int, features: seq<string>)

  datatype Grant = Grant(enabled: bool, reason: string)

  /** The tenant's stored tier and its tenant-level feature_grants rows. */
  datatype Stored = Stored(tier: int, grants: map<string, Grant>)

  datatype Diff = Diff(oldTier: int, newTier: int, enable: seq<string>, disable: seq<string>)

  datatype StateError = TierOutOfRange | NotManageable

  datatype ApplyError = TenantNotFound | StoreFailed

  function ClampTier(v: int): int { if v < 0 || v > TIER_MAX then 0 else v }

  predicate Enabled(st: Stored, f: string) { f in st.grants && st.grants[f].enabled }

  function EnabledSet(st: Stored): set<string> { set f | f in st.grants && st.grants[f].enabled }

  /** The members of fs that are in keep, in order. */
  function Keep(fs: seq<string>, keep: set<string>): seq<string> {
    if fs == [] then [] else Keep(fs[..|fs| - 1], keep) + (if fs[|fs| - 1] in keep then [fs[|fs| - 1]] else [])
  }

  /** What a reader of the API sees. */
  function Read(st: Stored): State { State(ClampTier(st.tier), Sort(Keep(MANAGED, EnabledSet(st)))) }

  function Canonical(s: State): State { State(s.tier, Sort(Keep(MANAGED, Elements(s.features)))) }

  predicate Valid(s: State) { 0 <= s.tier <= TIER_MAX && forall f | f in s.features :: f in MANAGED }

  predicate Changed(d: Diff) { d.oldTier != d.newTier || |d.enable| > 0 || |d.disable| > 0 }

  function DiffOf(current: State, desired: State): Diff {
    Diff(current.tier, desired.tier,
         Keep(MANAGED, Elements(desired.features) - Elements(current.features)),
         Keep(MANAGED, Elements(current.features) - Elements(desired.features)))
  }

  /** The stored state an apply aims for, feature by feature. */
  function Applied(st: Stored, desired: State): Stored {
    Stored(
      if ClampTier(st.tier) == desired.tier then st.tier else desired.tier,
      map f | f in st.grants.Keys + (Elements(MANAGED) * Elements(desired.features)) ::
        if f in MANAGED && f in desired.features && !Enabled(st, f) then Grant(true, GRANT_REASON)
        else if f in MANAGED && f !in desired.features && Enabled(st, f) then Grant(false, GRANT_REASON)
        else st.grants[f])
  }

  // ---- lists -------------------------------------------------------------------------

  lemma {:induction false} KeepMembers(fs: seq<string>, keep: set<string>)
    ensures forall f :: f in Keep(fs, keep) <==> f in fs && f in keep
    ensures NoDup(fs) ==> NoDup(Keep(fs, keep))
  {
    if fs != [] {
      KeepMembers(fs[..|fs| - 1], keep);
      assert fs == fs[..|fs| - 1] + [fs[|fs| - 1]];
      if NoDup(fs) {
        assert NoDup(fs[..|fs| - 1]);
        assert fs[|fs| - 1] !in fs[..|fs| - 1];
      }
    }
  }

  lemma ManagedNoDup()
    ensures NoDup(MANAGED)
  {
    assert MANAGED[0][0] != MANAGED[1][0];
  }

  lemma SortedFeatures(keep: set<string>)
    ensures var l := Sort(Keep(MANAGED, keep));
            Sorted(l) && NoDup(l) && forall f :: f in l <==> f in MANAGED && f in keep
  {
    ManagedNoDup();
    KeepMembers(MANAGED, keep);
    SortNoDup(Keep(MANAGED, keep));
  }

  lemma SameFeatures(a: set<string>, b: set<string>)
    ensures Sort(Keep(MANAGED, a)) == Sort(Keep(MANAGED, b)) <==> forall f | f in MANAGED :: f in a <==> f in b
  {
    SortedFeatures(a);
    SortedFeatures(b);
    var la, lb := Sort(Keep(MANAGED, a)), Sort(Keep(MANAGED, b));
    if forall f | f in MANAGED :: f in a <==> f in b {
      SortedUnique(la, lb);
    }
    if la == lb {
      forall f | f in MANAGED ensures f in a <==> f in b {
        assert f in la <==> f in a;
        assert f in lb <==> f in b;
      }
    }
  }

  // ---- convergence -------------------------------------------------------------------

  /** After an apply the tenant reads exactly as the canonical desired state,
      whatever was stored before, out-of-range tiers included. */
  lemma Converges(st: Stored, desired: State)
    requires Valid(desired)
    ensures Read(Applied(st, desired)) == Canonical(desired)
  {
    var after := Applied(st, desired);
    forall f | f in MANAGED ensures f in EnabledSet(after) <==> f in Elements(desired.features) {
      assert f in after.grants <==> f in st.grants || f in desired.features;
    }
    SameFeatures(EnabledSet(after), Elements(desired.features));
  }

  /** An out-of-range stored tier reads as the lowest one, and the features read
      are the managed ones that are enabled. */
  lemma ReadsAs(st: Stored)
    ensures Read(st).tier == if 0 <= st.tier <= 3 then st.tier else 0
    ensures forall f :: f in Read(st).features <==> f in MANAGED && f in st.grants && st.grants[f].enabled
  {
    SortedFeatures(EnabledSet(st));
  }

  /** Grants outside the managed set keep their rows as they were. */
  lemma UnmanagedUntouched(st: Stored, desired: State, f: string)
    requires f !in MANAGED
    ensures f in Applied(st, desired).grants <==> f in st.grants
    ensures f in st.grants ==> Applied(st, desired).grants[f] == st.grants[f]
  {
    assert f !in Elements(MANAGED);
  }

  /** The diff is empty exactly when the tenant already reads as desired. */
  lemma ChangedIffDifferent(st: Stored, desired: State)
    requires Valid(desired)
    ensures Changed(DiffOf(Read(st), desired)) <==> Read(st) != Canonical(desired)
  {
    var want, have := Elements(desired.features), Elements(Read(st).features);
    SortedFeatures(EnabledSet(st));
    SameFeatures(EnabledSet(st), want);
    KeepSome(want - have);
    KeepSome(have - want);
    assert (forall f | f in MANAGED :: f in EnabledSet(st) <==> f in want) <==>
           (forall f | f in MANAGED :: f !in want - have && f !in have - want);
  }

  lemma KeepSome(keep: set<string>)
    ensures |Keep(MANAGED, keep)| > 0 <==> exists f :: f in MANAGED && f in keep
  {
    KeepMembers(MANAGED, keep);
    var kept := Keep(MANAGED, keep);
    if |kept| > 0 { assert kept[0] in kept; }
  }

  /** Nothing is written when the tenant reads as desired, so a second apply is a no-op. */
  lemma AppliedTwice(st: Stored, desired: State)
    requires Valid(desired)
    ensures Read(st) == Canonical(desired) ==> Applied(st, desired) == st
    ensures Applied(Applied(st, desired), desired) == Applied(st, desired)
    ensures !Changed(DiffOf(Read(Applied(st, desired)), desired))
  {
    NoChange(st, desired);
    Converges(st, desired);
    NoChange(Applied(st, desired), desired);
    ChangedIffDifferent(Applied(st, desired), desired);
  }

  lemma NoChange(st: Stored, desired: State)
    ensures Read(st) == Canonical(desired) ==> Applied(st, desired) == st
  {
    if Read(st) == Canonical(desired) {
      SameFeatures(EnabledSet(st), Elements(desired.features));
      var after := Applied(st, desired);
      forall f | f in MANAGED ensures f in desired.features <==> Enabled(st, f) {
        assert f in EnabledSet(st) <==> f in Elements(desired.features);
      }
      assert after.grants.Keys == st.grants.Keys;
      assert after.grants == st.grants;
    }
  }

  // ---- the functions as written ----------------------------------------------------------

  method ValidateState(s: State) returns (err: Option<StateError>)
    ensures err == None <==> Valid(s)
    ensures err == Some(TierOutOfRange) <==> !(0 <= s.tier <= TIER_MAX)
  {
    if s.tier < 0 || s.tier > TIER_MAX { return Some(TierOutOfRange); }
    for i := 0 to |s.features|
      invariant forall j | 0 <= j < i :: s.features[j] in MANAGED
    {
      if s.features[i] !in MANAGED { return Some(NotManageable); }
    }
    return None;
  }

  method DiffStates(currentTier: int, currentFeatures: seq<string>, desired: State) returns (d: Diff)
    ensures d == DiffOf(State(currentTier, currentFeatures), desired)
  {
    var enable, disable: seq<string> := [], [];
    ghost var has, wants := Elements(currentFeatures), Elements(desired.features);
    for i := 0 to |MANAGED|
      invariant enable == Keep(MANAGED[..i], wants - has) && disable == Keep(MANAGED[..i], has - wants)
    {
      var f := MANAGED[i];
      assert MANAGED[..i + 1][..i] == MANAGED[..i];
      if f in desired.features && f !in currentFeatures {
        enable := enable + [f];
      } else if f in currentFeatures && f !in desired.features {
        disable := disable + [f];
      }
    }
    assert MANAGED[..|MANAGED|] == MANAGED;
    d := Diff(currentTier, desired.tier, enable, disable);
  }

  method CanonicalState(s: State) returns (out: State)
    ensures out == Canonical(s)
  {
    var features: seq<string> := [];
    for i := 0 to |MANAGED|
      invariant features == Keep(MANAGED[..i], Elements(s.features))
    {
      assert MANAGED[..i + 1][..i] == MANAGED[..i];
      if MANAGED[i] in s.features { features := features + [MANAGED[i]]; }
    }
    assert MANAGED[..|MANAGED|] == MANAGED;
    out := State(s.tier, Sort(features));
  }

  /** The rows a query for the enabled features may return, in any order. */
  ghost predicate Listing(st: Stored, rows: seq<string>) {
    NoDup(rows) && forall f :: f in rows <==> Enabled(st, f)
  }

  lemma ListingSplit(st: Stored, rows: seq<string>, features: seq<string>, unmanaged: seq<string>)
    requires Listing(st, rows)
    requires features == Keep(rows, Elements(MANAGED)) && unmanaged == Keep(rows, Elements(rows) - Elements(MANAGED))
    ensures Sort(features) == Read(st).features
    ensures Sorted(Sort(unmanaged)) && NoDup(Sort(unmanaged))
    ensures forall f :: f in Sort(unmanaged) <==> Enabled(st, f) && f !in MANAGED
  {
    KeepMembers(rows, Elements(MANAGED));
    KeepMembers(rows, Elements(rows) - Elements(MANAGED));
    SortNoDup(features);
    SortNoDup(unmanaged);
    SortedFeatures(EnabledSet(st));
    SortedUnique(Sort(features), Read(st).features);
  }

  /** One tenant row with its grants. */
  class Tenant {
    var tier: int
    var deleted: bool
    var grants: map<string, Grant>

    constructor (tier: int, grants: map<string, Grant>)
      ensures Row() == Stored(tier, grants) && !deleted
    {
      this.tier, this.grants, deleted := tier, grants, false;
    }

    function Row(): Stored
      reads this
    {
      Stored(tier, grants)
    }

    method LoadState(rows: seq<string>) returns (r: Result<(State, seq<string>), ApplyError>)
      requires Listing(Row(), rows)
      ensures r.Err? <==> deleted
      ensures r.Err? ==> r.error == TenantNotFound
      ensures r.Ok? ==> r.value.0 == Read(Row())
      ensures r.Ok? ==> Sorted(r.value.1) && NoDup(r.value.1)
                        && forall f :: f in r.value.1 <==> Enabled(Row(), f) && f !in MANAGED
    {
      if deleted { return Err(TenantNotFound); }
      var features, unmanaged: seq<string> := [], [];
      for i := 0 to |rows|
        invariant features == Keep(rows[..i], Elements(MANAGED))
        invariant unmanaged == Keep(rows[..i], Elements(rows) - Elements(MANAGED))
      {
        assert rows[..i + 1][..i] == rows[..i];
        if rows[i] in MANAGED { features := features + [rows[i]]; } else { unmanaged := unmanaged + [rows[i]]; }
      }
      assert rows[..|rows|] == rows;
      ListingSplit(Row(), rows, features, unmanaged);
      r := Ok((State(ClampTier(tier), Sort(features)), Sort(unmanaged)));
    }

    /** Upserts enabled rows, or switches existing ones off in place. */
    method WriteGrants(fs: seq<string>, enabled: bool)
      modifies this`grants
      ensures grants == Upserted(old(grants), fs, enabled)
    {
      for i := 0 to |fs|
        invariant grants == Upserted(old(grants), fs[..i], enabled)
      {
        assert fs[..i + 1] == fs[..i] + [fs[i]];
        grants := grants[fs[i] := Grant(enabled, GRANT_REASON)];
      }
      assert fs[..|fs|] == fs;
    }

    /** One transaction: everything or nothing. */
    method Apply(desired: State, rows: seq<string>, commits: bool) returns (r: Result<Diff, ApplyError>)
      requires Valid(desired) && Listing(Row(), rows)
      modifies this
      ensures deleted == old(deleted)
      ensures r == Err(TenantNotFound) <==> deleted
      ensures r.Err? ==> Row() == old(Row())
      ensures r.Ok? ==> r.value == DiffOf(old(Read(Row())), desired)
      ensures r.Ok? ==> Row() == Applied(old(Row()), desired)
      ensures r.Ok? ==> Read(Row()) == Canonical(desired)
      ensures r.Ok? ==> (Changed(r.value) <==> old(Read(Row())) != Canonical(desired))
    {
      var loaded := LoadState(rows);
      if loaded.Err? { return Err(loaded.error); }
      var current := loaded.value.0;
      var diff := DiffStates(current.tier, current.features, desired);
      ghost var before := Row();
      Converges(before, desired);
      ChangedIffDifferent(before, desired);
      NoChange(before, desired);
      if !Changed(diff) { return Ok(diff); }
      if !commits { return Err(StoreFailed); }
      if diff.oldTier != diff.newTier { tier := diff.newTier; }
      WriteGrants(diff.enable, true);
      WriteGrants(diff.disable, false);
      DiffReachesApplied(before, desired);
      r := Ok(diff);
    }
  }

  function Upserted(grants: map<string, Grant>, fs: seq<string>, enabled: bool): map<string, Grant> {
    map f | f in grants.Keys + Elements(fs) :: if f in fs then Grant(enabled, GRANT_REASON) else grants[f]
  }

  /** Carrying out the diff row by row gives the state aimed for. */
  lemma DiffReachesApplied(st: Stored, desired: State)
    ensures var d := DiffOf(Read(st), desired);
            Upserted(Upserted(st.grants, d.enable, true), d.disable, false) == Applied(st, desired).grants
  {
    var current := Read(st);
    var d := DiffOf(current, desired);
    SortedFeatures(EnabledSet(st));
    KeepMembers(MANAGED, Elements(desired.features) - Elements(current.features));
    KeepMembers(MANAGED, Elements(current.features) - Elements(desired.features));
    var got, aim := Upserted(Upserted(st.grants, d.enable, true), d.disable, false), Applied(st, desired).grants;
    forall f ensures f in d.enable <==> f in MANAGED && f in desired.features && !Enabled(st, f) {}
    forall f ensures f in d.disable <==> f in MANAGED && f !in desired.features && Enabled(st, f) {}
    SameGrants(got, aim, st, desired);
  }

  lemma SameGrants(got: map<string, Grant>, aim: map<string, Grant>, st: Stored, desired: State)
    requires aim == Applied(st, desired).grants
    requires var d := DiffOf(Read(st), desired);
             && got == Upserted(Upserted(st.grants, d.enable, true), d.disable, false)
             && (forall f :: f in d.enable <==> f in MANAGED && f in desired.features && !Enabled(st, f))
             && (forall f :: f in d.disable <==> f in MANAGED && f !in desired.features && Enabled(st, f))
    ensures got == aim
  {
    assert got.Keys == aim.Keys;
    forall f | f in got ensures got[f] == aim[f] {}
  }
}
