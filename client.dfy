/**
 * The decisions of the current CLI (src/main.go): the entitlement gate of
 * `state up`, the already-up and already-down guards of `state up` and
 * `state down`, and `location set` with its lookup and its deny rule.
 * Times are integer nanoseconds.
 */
module Client {
  import opened Wrappers
  import opened Locations
  import opened Cli
  import Uuid

  const PremiumBundle: string := "com.forestvpn.premium"
  const FreemiumBundle: string := "com.forestvpn.freemium"
  const CheckoutUrl: string := "https://forestvpn.com/checkout/"

  const Second: int := 1_000_000_000
  const Minute: int := 60 * Second
  const Hour: int := 60 * Minute
  const Day: int := 24 * Hour

  /** The conversion of a quotient to an integer in Go: truncation toward zero. */
  function TruncDiv(a: int, b: int): int
    requires b > 0
  {
    if a >= 0 then a / b else -((-a) / b)
  }

  // ---------------------------------------------------------------------------
  // The entitlement gate of `state up`
  // ---------------------------------------------------------------------------

  /** The verdict of the gate: two denials and two warnings are possible. */
  datatype Gate = LocationUnavailable | SessionOver | TrialEnding | PremiumEnding | Proceed {
    predicate Denies() { LocationUnavailable? || SessionOver? }
  }

  /**
   * The if/else-if chain of `state up` over the bundle id, the expiry, the
   * current time and the device's location. `days` is the truncated number of
   * whole days left, and `left.Hours() == 0` holds exactly when nothing is left.
   */
  function UpGate(bid: string, exp: int, now: int, location: Location): (g: Gate)
    ensures g.Denies() <==> now > exp
  {
    var left := exp - now;
    var days := TruncDiv(left, Day);
    if now > exp then
      if IsPremiumLocation(location) && bid == PremiumBundle then LocationUnavailable else SessionOver
    else if bid == FreemiumBundle && TruncDiv(left, Minute) < 5 then TrialEnding
    else if (days == 3 && left == 0) || (days < 3 && bid == PremiumBundle) then PremiumEnding
    else Proceed
  }

  /** Three truncated days need at least 72 hours left, so `days == 3 && left.Hours() == 0` never holds. */
  lemma ThreeDaysNeverZero(left: int)
    requires TruncDiv(left, Day) == 3
    ensures left >= 3 * Day
  {
  }

  /** With time left, the truncated minutes are below 5 exactly when less than five minutes are left. */
  lemma MinutesBelowFive(left: int)
    requires left >= 0
    ensures TruncDiv(left, Minute) < 5 <==> left < 5 * Minute
  {
  }

  /** With time left, the truncated days are below 3 exactly when less than three days are left. */
  lemma DaysBelowThree(left: int)
    requires left >= 0
    ensures TruncDiv(left, Day) < 3 <==> left < 3 * Day
  {
  }

  /** The gate in its own words: which verdict holds for which bundle, expiry and time. */
  lemma UpGateCases(bid: string, exp: int, now: int, location: Location)
    ensures UpGate(bid, exp, now, location) == LocationUnavailable <==>
      now > exp && bid == PremiumBundle && location.id != Helsinki && location.id != Falkenstein
    ensures UpGate(bid, exp, now, location) == SessionOver <==>
      now > exp && !(bid == PremiumBundle && location.id != Helsinki && location.id != Falkenstein)
    ensures UpGate(bid, exp, now, location) == TrialEnding <==>
      now <= exp && bid == FreemiumBundle && exp - now < 5 * Minute
    ensures UpGate(bid, exp, now, location) == PremiumEnding <==>
      now <= exp && bid == PremiumBundle && exp - now < 3 * Day
  {
    if now <= exp {
      MinutesBelowFive(exp - now);
      DaysBelowThree(exp - now);
      if TruncDiv(exp - now, Day) == 3 {
        ThreeDaysNeverZero(exp - now);
      }
    }
  }

  /** `After` is strict: at the very moment of expiry the gate does not deny. */
  lemma ExpiryMomentNotExpired(bid: string, t: int, location: Location)
    ensures !UpGate(bid, t, t, location).Denies()
  {
  }

  /** A premium subscription with two days left gets the "less than 3 days" warning. */
  lemma PremiumTwoDaysLeftWarns(now: int, location: Location)
    ensures UpGate(PremiumBundle, now + 2 * Day, now, location) == PremiumEnding
  {
    UpGateCases(PremiumBundle, now + 2 * Day, now, location);
  }

  const AdOrPremium: string :=
    "You can keep using ForestVPN once you watch an ad in our mobile app, or simply go Premium at " + CheckoutUrl + "."

  /** The lines the gate prints. */
  function GateLines(g: Gate): seq<string> {
    match g
    case LocationUnavailable =>
      ["The location you were using is now unavailable, as your paid subscription has ended.", AdOrPremium]
    case SessionOver => ["Your 30-minute session is over.", AdOrPremium]
    case TrialEnding => ["You currently have less than 5 minutes of free trial left."]
    case PremiumEnding => ["Your premium subscription will end in less than 3 days."]
    case Proceed => []
  }

  // ---------------------------------------------------------------------------
  // state up / state down
  // ---------------------------------------------------------------------------

  const AlreadyUp: string := "State is already up and running"
  const AlreadyDown: string := "State is already down"
  const NotUpAfterUp: string := "unexpected error: state.status is false after state is up"
  const UpAfterDown: string := "unexpected error: state.status is true after state is down"

  /**
   * `state up` once the user is signed in and the billing feature and device
   * are loaded: `upBefore` and `upAfter` are the interface status before and
   * after SetUp, `setUpError` SetUp's error.
   */
  function StateUp(upBefore: bool, bid: string, exp: int, now: int, location: Location,
                   setUpError: Option<string>, upAfter: bool): (run: Run)
    ensures run.transitions == [] || run.transitions == [SetUp]
    ensures run.ending == Return(None) <==> !upBefore && now <= exp && setUpError.None? && upAfter
  {
    if upBefore then Run([AlreadyUp], [], Exit(1))
    else
      var g := UpGate(bid, exp, now, location);
      var lines := GateLines(g);
      if g.Denies() then Run(lines, [], Exit(1))
      else if setUpError.Some? then Run(lines, [SetUp], Return(setUpError))
      else if upAfter then Run(lines + ["Connected to " + location.name + ", " + location.countryName], [SetUp], Return(None))
      else Run(lines, [SetUp], Return(Some(NotUpAfterUp)))
  }

  /** `state up` asks for SetUp exactly when the interface is down and the gate lets it through; otherwise it exits 1. */
  lemma StateUpTransitions(upBefore: bool, bid: string, exp: int, now: int, location: Location,
                           setUpError: Option<string>, upAfter: bool)
    ensures var run := StateUp(upBefore, bid, exp, now, location, setUpError, upAfter);
      && (run.transitions == [SetUp] <==> !upBefore && now <= exp)
      && (run.transitions == [] <==> upBefore || now > exp)
      && (run.ending == Exit(1) <==> upBefore || now > exp)
    ensures upBefore ==> StateUp(upBefore, bid, exp, now, location, setUpError, upAfter).printed == [AlreadyUp]
  {
  }

  /** When SetUp is requested, at most one warning line precedes the outcome. */
  lemma StateUpAtMostOneWarning(bid: string, exp: int, now: int, location: Location,
                                setUpError: Option<string>, upAfter: bool)
    requires now <= exp
    ensures |GateLines(UpGate(bid, exp, now, location))| <= 1
    ensures |StateUp(false, bid, exp, now, location, setUpError, upAfter).printed| <= 2
    ensures upAfter && setUpError.None? ==>
      StateUp(false, bid, exp, now, location, setUpError, upAfter).ending == Return(None)
    ensures !upAfter && setUpError.None? ==>
      StateUp(false, bid, exp, now, location, setUpError, upAfter).ending == Return(Some(NotUpAfterUp))
  {
  }

  /** `state down` once the user is signed in: SetDown only when the interface is up. */
  function StateDown(upBefore: bool, setDownError: Option<string>, upAfter: bool): (run: Run)
    ensures run.ending.Exit? ==> run.printed == [AlreadyDown]
    ensures run.printed == ["Disconnected"] <==> run.ending == Return(None)
  {
    if !upBefore then Run([AlreadyDown], [], Exit(1))
    else if setDownError.Some? then Run([], [SetDown], Return(setDownError))
    else if upAfter then Run([], [SetDown], Return(Some(UpAfterDown)))
    else Run(["Disconnected"], [SetDown], Return(None))
  }

  lemma StateDownTransitions(upBefore: bool, setDownError: Option<string>, upAfter: bool)
    ensures StateDown(upBefore, setDownError, upAfter).transitions == (if upBefore then [SetDown] else [])
    ensures StateDown(upBefore, setDownError, upAfter).ending == Exit(1) <==> !upBefore
    ensures StateDown(upBefore, setDownError, upAfter).ending == Return(None) <==> upBefore && setDownError.None? && !upAfter
  {
  }

  // ---------------------------------------------------------------------------
  // location set
  // ---------------------------------------------------------------------------

  /** The deny rule of `location set`: a premium location on the free bundle, or any expired billing. */
  function LocationSetDenied(premium: bool, bid: string, expired: bool): (denied: bool)
    ensures denied ==> expired || bid == FreemiumBundle
  {
    (premium && bid == FreemiumBundle) || expired
  }

  lemma LocationSetDeniedCases(premium: bool, bid: string, expired: bool)
    ensures expired ==> LocationSetDenied(premium, bid, expired)
    ensures bid == PremiumBundle && !expired ==> !LocationSetDenied(premium, bid, expired)
    ensures !premium && !expired ==> !LocationSetDenied(premium, bid, expired)
    ensures premium && bid == FreemiumBundle ==> LocationSetDenied(premium, bid, expired)
  {
  }

  /** `state up` lets an unexpired free bundle with time left connect to a premium location `location set` would refuse. */
  lemma GatesDisagreeOnPremiumLocation(exp: int, now: int, location: Location)
    requires location.id != Helsinki && location.id != Falkenstein
    requires exp - now >= 5 * Minute
    ensures UpGate(FreemiumBundle, exp, now, location) == Proceed
    ensures LocationSetDenied(IsPremiumLocation(location), FreemiumBundle, now > exp)
  {
    UpGateCases(FreemiumBundle, exp, now, location);
  }

  datatype LocationSetOutcome =
    | ConnectionBusy
    | Failed(message: string)
    | Unavailable
    | Selected(location: LocationWrapper, writesConfig: bool)

  const UnavailableLine: string :=
    "The location you want to use is now unavailable, as it requires a paid subscription. You can unlock it by going Premium at " + CheckoutUrl + "."

  /** What `location set` prints for each outcome. */
  function SetLines(o: LocationSetOutcome): seq<string> {
    match o
    case ConnectionBusy => ["Please, set down the connection before setting a new location.", "Try 'fvpn state down'"]
    case Failed(_) => []
    case Unavailable => [UnavailableLine]
    case Selected(w, _) => ["Default location is set to " + w.location.name + ", " + w.location.countryName]
  }

  /**
   * `location set` once signed in, given the interface status, the argument, the
   * locations, the billing feature, the time, and the error the configuration
   * write (Locations.SetLocation and its save) returns: a busy interface, an
   * argument error, a refusal, a failed write, or the location the device is
   * moved to (and whether the WireGuard configuration is rewritten, which
   * OpenWRT skips).
   */
  method LocationSet(up: bool, arg: string, locations: seq<Location>, bid: string, exp: int, now: int, openWrt: bool,
                     setLocationError: Option<string>)
    returns (outcome: LocationSetOutcome)
    ensures up <==> outcome == ConnectionBusy
    ensures !up && |arg| == 0 ==> outcome == Failed("UUID or name required")
    ensures !up && |arg| > 0 && (Uuid.Parse(arg).Some? || FirstNamed(Wrapped(locations), arg).None?) ==>
      outcome == Failed("no such location: " + arg)
    ensures !up && |arg| > 0 && Uuid.Parse(arg).None? && FirstNamed(Wrapped(locations), arg).Some? ==>
      var w := Wrap(locations[FirstNamed(Wrapped(locations), arg).value]);
      outcome == (if LocationSetDenied(w.premium, bid, now > exp) then Unavailable
                  else if !openWrt && setLocationError.Some? then Failed(setLocationError.value)
                  else Selected(w, !openWrt))
    ensures outcome.Selected? ==> openWrt || setLocationError.None?
  {
    if up {
      return ConnectionBusy;
    }
    if |arg| < 1 {
      return Failed("UUID or name required");
    }
    var wrapped := GetLocationWrappers(locations);
    var location, found := FindLocation(wrapped, arg);
    if !found {
      return Failed("no such location: " + arg);
    }
    var expired := now > exp;
    if LocationSetDenied(location.premium, bid, expired) {
      return Unavailable;
    }
    if !openWrt && setLocationError.Some? {
      return Failed(setLocationError.value);
    }
    outcome := Selected(location, !openWrt);
  }
}
