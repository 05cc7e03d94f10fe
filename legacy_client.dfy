/**
 * The older CLI entry point (src/cmd/main.go): the random default location
 * `account login` picks, `location set` with the same lookup as the current
 * CLI, and the up/down sequencing of `state up` and `state down`.
 */
module LegacyClient {
  import opened Wrappers
  import opened Locations
  import opened Cli
  import Uuid

  // ---------------------------------------------------------------------------
  // The default location picked at login
  // ---------------------------------------------------------------------------

  /** The wrappers that do not need premium, in their original order. */
  function NonPremium(wrapped: seq<LocationWrapper>): (r: seq<LocationWrapper>)
    ensures |r| <= |wrapped|
    ensures forall i :: 0 <= i < |r| ==> !r[i].premium && r[i] in wrapped
    decreases |wrapped|
  {
    if wrapped == [] then []
    else
      var init := NonPremium(wrapped[..|wrapped| - 1]);
      var last := wrapped[|wrapped| - 1];
      if !last.premium then init + [last] else init
  }

  /** NonPremium keeps every free wrapper as often as it occurs, and nothing else. */
  lemma {:induction false} NonPremiumCounts(wrapped: seq<LocationWrapper>, w: LocationWrapper)
    ensures multiset(NonPremium(wrapped))[w] == if w.premium then 0 else multiset(wrapped)[w]
    decreases |wrapped|
  {
    if wrapped != [] {
      var init := wrapped[..|wrapped| - 1];
      NonPremiumCounts(init, w);
      assert wrapped == init + [wrapped[|wrapped| - 1]];
    }
  }

  /** NonPremium keeps order: the filter of a concatenation is the concatenation of the filters. */
  lemma {:induction false} NonPremiumAppend(a: seq<LocationWrapper>, b: seq<LocationWrapper>)
    ensures NonPremium(a + b) == NonPremium(a) + NonPremium(b)
    decreases |b|
  {
    if b == [] {
      assert a + b == a;
    } else {
      var init := b[..|b| - 1];
      NonPremiumAppend(a, init);
      assert (a + b)[..|a + b| - 1] == a + init;
    }
  }

  /** The locations a user may be given: all of them for a premium user, else the free ones. */
  function LoginSet(premiumUser: bool, wrapped: seq<LocationWrapper>): (locationSet: seq<LocationWrapper>)
    ensures forall i :: 0 <= i < |locationSet| ==> locationSet[i] in wrapped
    ensures !premiumUser ==> forall i :: 0 <= i < |locationSet| ==> !locationSet[i].premium
  {
    if premiumUser then wrapped else NonPremium(wrapped)
  }

  /** The locationSet of `account login`, built by the append loop. */
  method LocationSetFor(premiumUser: bool, wrapped: seq<LocationWrapper>) returns (locationSet: seq<LocationWrapper>)
    ensures locationSet == LoginSet(premiumUser, wrapped)
  {
    if premiumUser {
      return wrapped;
    }
    locationSet := [];
    for i := 0 to |wrapped|
      invariant locationSet == NonPremium(wrapped[..i])
    {
      assert wrapped[..i + 1][..i] == wrapped[..i];
      if !wrapped[i].premium {
        locationSet := locationSet + [wrapped[i]];
      }
    }
    assert wrapped[..|wrapped|] == wrapped;
  }

  /**
   * The pick as written: `rand.Intn(len(locationSet))`, modelled as any `draw`
   * reduced modulo the length, indexes `wrappedLocations`. None stands for the
   * panic of rand.Intn on an empty set.
   */
  function PickAsWritten(premiumUser: bool, wrapped: seq<LocationWrapper>, draw: nat): (r: Option<LocationWrapper>)
    ensures r.Some? ==> r.value in wrapped
    ensures r.None? <==> LoginSet(premiumUser, wrapped) == []
  {
    var n := |LoginSet(premiumUser, wrapped)|;
    if n == 0 then None else Some(wrapped[draw % n])
  }

  /** A free user with a premium location listed first is given that premium location. */
  lemma PickAsWrittenCanBePremium()
    ensures var paid := LocationWrapper(Location("p", "Paris", "France"), true);
      var free := LocationWrapper(Location(Helsinki, "Helsinki", "Finland"), false);
      PickAsWritten(false, [paid, free], 0) == Some(paid) && paid.premium
  {
    var paid := LocationWrapper(Location("p", "Paris", "France"), true);
    var free := LocationWrapper(Location(Helsinki, "Helsinki", "Finland"), false);
    assert [paid, free][..1] == [paid];
    assert [paid, free][..1][..0] == [];
    assert NonPremium([paid, free]) == [free];
  }

  /** The corrected pick: the drawn index selects from locationSet itself. */
  function Pick(locationSet: seq<LocationWrapper>, draw: nat): (r: Option<LocationWrapper>)
    ensures r.Some? ==> r.value in locationSet
    ensures r.None? <==> locationSet == []
  {
    if |locationSet| == 0 then None else Some(locationSet[draw % |locationSet|])
  }

  /** Every location of the set is the pick of some draw. */
  lemma PickReachesEvery(locationSet: seq<LocationWrapper>, k: nat)
    requires k < |locationSet|
    ensures Pick(locationSet, k) == Some(locationSet[k])
  {
  }

  /** With the corrected pick a free user is only ever given a free location, and a premium user any location. */
  lemma PickRespectsSubscription(premiumUser: bool, wrapped: seq<LocationWrapper>, draw: nat)
    ensures Pick(LoginSet(premiumUser, wrapped), draw).Some? ==> Pick(LoginSet(premiumUser, wrapped), draw).value in wrapped
    ensures !premiumUser && Pick(LoginSet(premiumUser, wrapped), draw).Some? ==> !Pick(LoginSet(premiumUser, wrapped), draw).value.premium
  {
  }

  /** The draw fails exactly when a free user is offered only premium locations, or a premium user none at all. */
  lemma EmptyLoginSet(premiumUser: bool, wrapped: seq<LocationWrapper>)
    ensures !premiumUser ==> (LoginSet(premiumUser, wrapped) == [] <==> forall i :: 0 <= i < |wrapped| ==> wrapped[i].premium)
    ensures premiumUser ==> (LoginSet(premiumUser, wrapped) == [] <==> wrapped == [])
  {
    if !premiumUser {
      if exists i :: 0 <= i < |wrapped| && !wrapped[i].premium {
        var i :| 0 <= i < |wrapped| && !wrapped[i].premium;
        NonPremiumCounts(wrapped, wrapped[i]);
        assert multiset(NonPremium(wrapped))[wrapped[i]] > 0;
        assert NonPremium(wrapped) != [];
      } else {
        AllPremiumLeavesNothing(wrapped);
      }
    }
  }

  lemma {:induction false} AllPremiumLeavesNothing(wrapped: seq<LocationWrapper>)
    requires forall i :: 0 <= i < |wrapped| ==> wrapped[i].premium
    ensures NonPremium(wrapped) == []
    decreases |wrapped|
  {
    if wrapped != [] {
      AllPremiumLeavesNothing(wrapped[..|wrapped| - 1]);
    }
  }

  /**
   * The default location `account login` sets, as written: the index drawn over
   * locationSet selects from wrappedLocations. None stands for the panic on an empty set.
   */
  method LoginPick(premiumUser: bool, wrapped: seq<LocationWrapper>, draw: nat) returns (location: Option<LocationWrapper>)
    ensures location == PickAsWritten(premiumUser, wrapped, draw)
  {
    var locationSet := LocationSetFor(premiumUser, wrapped);
    if |locationSet| == 0 {
      return None;
    }
    var randomIndex := draw % |locationSet|;
    location := Some(wrapped[randomIndex]);
  }

  // ---------------------------------------------------------------------------
  // location set
  // ---------------------------------------------------------------------------

  const NotLoggedIn: seq<string> := ["Are you logged in?", "Try 'forest account login'"]

  datatype LocationSetOutcome =
    | LoggedOut
    | Failed(message: string)
    | Selected(location: LocationWrapper)

  /**
   * `location set` given whether a user is logged in, the argument and the
   * wrapped locations: no deny rule, the chosen location's city and country
   * go to the session file and the configuration is written.
   */
  method LocationSet(authenticated: bool, arg: string, wrapped: seq<LocationWrapper>) returns (outcome: LocationSetOutcome)
    ensures !authenticated <==> outcome == LoggedOut
    ensures authenticated && |arg| == 0 ==> outcome == Failed("UUID or name required")
    ensures authenticated && |arg| > 0 && (Uuid.Parse(arg).Some? || FirstNamed(wrapped, arg).None?) ==>
      outcome == Failed("no such location: " + arg)
    ensures authenticated && |arg| > 0 && Uuid.Parse(arg).None? && FirstNamed(wrapped, arg).Some? ==>
      outcome == Selected(wrapped[FirstNamed(wrapped, arg).value])
  {
    if !authenticated {
      return LoggedOut;
    }
    if |arg| < 1 {
      return Failed("UUID or name required");
    }
    var location, found := FindLocation(wrapped, arg);
    if !found {
      return Failed("no such location: " + arg);
    }
    outcome := Selected(location);
  }

  // ---------------------------------------------------------------------------
  // state up / state down
  // ---------------------------------------------------------------------------

  /**
   * `state up` against an abstract interface: `upBefore` and `upAfter` are the
   * status before and after the transitions, the errors are SetDown's and SetUp's.
   */
  function StateUp(authenticated: bool, locationSet: bool, upBefore: bool, setDownError: Option<string>,
                   setUpError: Option<string>, upAfter: bool, city: string, country: string): (run: Run)
    ensures |run.transitions| <= 2
    ensures run.printed == ["Connected to " + city + ", " + country] <==>
      authenticated && locationSet && (upBefore ==> setDownError.None?) && setUpError.None? && upAfter
  {
    if !authenticated then Run(NotLoggedIn, [], Return(None))
    else if !locationSet then
      Run(["Please, choose the location to connect.", "Use 'fvpn location ls' to see available locations."], [], Return(None))
    else if upBefore && setDownError.Some? then Run([], [SetDown], Return(setDownError))
    else
      var transitions := (if upBefore then [SetDown] else []) + [SetUp];
      if setUpError.Some? then Run([], transitions, Return(setUpError))
      else if upAfter then Run(["Connected to " + city + ", " + country], transitions, Return(None))
      else Run([], transitions, Return(Some("state set up error")))
  }

  /** An up interface is taken down before it is brought up; nothing happens without a user or a location. */
  lemma StateUpSequencing(authenticated: bool, locationSet: bool, upBefore: bool, setDownError: Option<string>,
                          setUpError: Option<string>, upAfter: bool, city: string, country: string)
    ensures var run := StateUp(authenticated, locationSet, upBefore, setDownError, setUpError, upAfter, city, country);
      && (!authenticated || !locationSet <==> run.transitions == [])
      && (authenticated && locationSet && upBefore ==> run.transitions[0] == SetDown)
      && (SetUp in run.transitions ==> run.transitions == (if upBefore then [SetDown, SetUp] else [SetUp]))
      && (SetUp in run.transitions <==> authenticated && locationSet && (upBefore ==> setDownError.None?))
      && run.ending.Return?
    ensures authenticated && locationSet && setDownError.None? && setUpError.None? && !upAfter ==>
      StateUp(authenticated, locationSet, upBefore, setDownError, setUpError, upAfter, city, country).ending
        == Return(Some("state set up error"))
  {
  }

  /** `state down` against an abstract interface. */
  function StateDown(authenticated: bool, upBefore: bool, setDownError: Option<string>, upAfter: bool): (run: Run)
    ensures run.ending.Return?
    ensures run.printed == ["Disconnected"] <==> authenticated && upBefore && setDownError.None? && !upAfter
  {
    if !authenticated then Run(NotLoggedIn, [], Return(None))
    else if !upBefore then Run(["Not connected"], [], Return(None))
    else if setDownError.Some? then Run([], [SetDown], Return(setDownError))
    else if !upAfter then Run(["Disconnected"], [SetDown], Return(None))
    else Run([], [SetDown], Return(Some("state set down error")))
  }

  /** SetDown is requested exactly for a logged-in user with an up interface; still up afterwards is an error. */
  lemma StateDownSequencing(authenticated: bool, upBefore: bool, setDownError: Option<string>, upAfter: bool)
    ensures StateDown(authenticated, upBefore, setDownError, upAfter).transitions == (if authenticated && upBefore then [SetDown] else [])
    ensures setDownError.None? ==>
      (StateDown(authenticated, upBefore, setDownError, upAfter).ending == Return(Some("state set down error")) <==>
       authenticated && upBefore && upAfter)
    ensures authenticated && !upBefore ==> StateDown(authenticated, upBefore, setDownError, upAfter).printed == ["Not connected"]
  {
  }
}
